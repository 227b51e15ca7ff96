/**
 * The path of a YouTube submission from the backend's reply to the upload
 * form's error box: the `400` details `process_video` raises, the error text
 * the form stores, and the form's "YouTube is blocking" hint test.
 */
module Upload {
  import opened Wrappers
  import opened Chunking

  /** What the transcript fetch for a video id produced: the transcript text, or the text of the exception raised. */
  datatype TranscriptFetch = FetchedText(text: string) | FetchError(err: string)

  /** How the form's `/process-video` request came back. */
  datatype VideoReply =
    | Processed               // a success status
    | Refused(detail: string) // an error status whose JSON body carries this `detail`
    | Unreachable(message: string) // `fetch` itself rejected, with this error message

  /** `get_youtube_transcript`: the pair (transcript, message) for the fetch's outcome. */
  function GetTranscript(fetch: TranscriptFetch): (r: (string, string))
    ensures fetch.FetchedText? ==> r == (fetch.text, "")
    ensures fetch.FetchError? ==> r.0 == "" && r.1 != ""
  {
    match fetch
    case FetchedText(text) => (text, "")
    case FetchError(err) => TranscriptFailure(err)
  }

  /**
   * The first two checks of `process_video`: a URL without a video id is
   * refused as "Invalid YouTube URL"; an empty transcript is refused with the
   * transcript's message as the detail; otherwise processing goes on.
   */
  function ReplyFor(url: string, fetch: TranscriptFetch): (r: VideoReply)
    ensures ExtractYoutubeVideoId(url) == "" ==> r == Refused("Invalid YouTube URL")
    ensures ExtractYoutubeVideoId(url) != "" && fetch.FetchError? ==> r == Refused(TranscriptFailure(fetch.err).1)
    ensures ExtractYoutubeVideoId(url) != "" && fetch.FetchedText? ==>
              r == if fetch.text == "" then Refused("") else Processed
  {
    var videoId := ExtractYoutubeVideoId(url);
    if videoId == "" then Refused("Invalid YouTube URL")
    else
      var (transcript, message) := GetTranscript(fetch);
      if transcript == "" then Refused(message) else Processed
  }

  /** The form's `error.includes("YouTube is blocking")` test for showing its hint. */
  predicate ShowsBlockingHint(error: string) {
    Contains(error, "YouTube is blocking")
  }

  const ProcessFailed: string := "Failed to process video"

  /**
   * The error text `handleYoutubeSubmit` leaves in the form, as written: it
   * starts cleared, any error status is replaced by the fixed "Failed to
   * process video" before the body is read, and a rejected `fetch` shows its
   * own message or "Something went wrong".
   */
  function FormErrorAsWritten(reply: VideoReply): (r: string)
    ensures reply.Processed? <==> r == ""
    ensures reply.Refused? ==> r == ProcessFailed
  {
    match reply
    case Processed => ""
    case Refused(_) => ProcessFailed
    case Unreachable(message) => if message != "" then message else "Something went wrong"
  }

  /** As written, no error status ever brings up the hint, whatever detail the backend sent. */
  lemma {:induction false} NoHintAfterRefusal(detail: string)
    ensures !ShowsBlockingHint(FormErrorAsWritten(Refused(detail)))
  {
    assert 'Y' !in ProcessFailed;
    AbsentFirstChar(ProcessFailed, "YouTube is blocking");
  }

  /**
   * The discrepancy on a concrete input: the smoke-script URL whose transcript
   * fetch fails with a "cloud provider" error gets the blocking message from
   * the backend, yet the form as written shows no hint.
   */
  lemma BlockedVideoShowsNoHint()
    ensures ReplyFor(WatchUrl, FetchError("cloud provider")) == Refused(BlockingMessage)
    ensures !ShowsBlockingHint(FormErrorAsWritten(ReplyFor(WatchUrl, FetchError("cloud provider"))))
  {
    WatchUrlExample();
    assert StartsAt("cloud provider"[0..], "cloud provider");
    assert IsBlockingError("cloud provider");
    NoHintAfterRefusal(BlockingMessage);
  }

  /**
   * The error text the form evidently means to show: the backend's `detail`
   * for an error status (the fixed text only when the detail is empty), the
   * rest as written.
   */
  function FormError(reply: VideoReply): (r: string)
    ensures reply.Processed? <==> r == ""
    ensures reply.Refused? && reply.detail != "" ==> r == reply.detail
    ensures reply.Refused? && reply.detail == "" ==> r == ProcessFailed
  {
    match reply
    case Refused(detail) => if detail != "" then detail else ProcessFailed
    case _ => FormErrorAsWritten(reply)
  }

  /** A string no longer than a pattern contains it only by being it. */
  lemma {:induction false} ShortContains(s: string, sub: string)
    requires |s| <= |sub| && s != sub
    ensures !Contains(s, sub)
  {
    forall i | 0 <= i <= |s|
      ensures !StartsAt(s[i..], sub)
    {
      if i == 0 {
        assert s[0..] == s;
      }
    }
  }

  /**
   * With the detail passed through, the hint shows after a YouTube submission
   * exactly when the URL has a video id and its transcript fetch failed with
   * an error classified as blocking.
   */
  lemma {:induction false} HintShownExactlyWhenBlocked(url: string, fetch: TranscriptFetch)
    ensures ShowsBlockingHint(FormError(ReplyFor(url, fetch))) <==>
              ExtractYoutubeVideoId(url) != "" && fetch.FetchError? && IsBlockingError(fetch.err)
  {
    assert 'Y' !in ProcessFailed;
    AbsentFirstChar(ProcessFailed, "YouTube is blocking");
    AbsentFirstChar("", "YouTube is blocking");
    if ExtractYoutubeVideoId(url) == "" {
      assert |"Invalid YouTube URL"| == 19 && |"YouTube is blocking"| == 19;
      assert "Invalid YouTube URL"[0] != "YouTube is blocking"[0];
      ShortContains("Invalid YouTube URL", "YouTube is blocking");
    } else if fetch.FetchError? {
      BlockingPhraseExactlyWhenBlocked(fetch.err);
    }
  }
}
