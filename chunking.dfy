/**
 * The pure string logic of the backend's ingestion utilities:
 * extracting an 11-character YouTube video id from a URL with the regular
 * expression search `(?:v=|/)([0-9A-Za-z_-]{11}).*`, and turning the text of a
 * transcript-fetch failure into the message shown to the user.
 */
module Chunking {
  import opened Wrappers

  /** Length of a YouTube video id, the `{11}` of the pattern. */
  const IdLength: nat := 11

  /** The character class `[0-9A-Za-z_-]`. */
  predicate IsIdChar(c: char) {
    ('0' <= c <= '9') || ('A' <= c <= 'Z') || ('a' <= c <= 'z') || c == '_' || c == '-'
  }

  /** Every character of `s` lies in the id character class. */
  predicate AllIdChars(s: string) {
    forall i :: 0 <= i < |s| ==> IsIdChar(s[i])
  }

  /** A well-formed video id: exactly 11 id characters. */
  predicate IsVideoId(s: string) {
    |s| == IdLength && AllIdChars(s)
  }

  /**
   * The regular expression tried at start position `p`: either `v=` or `/`
   * starts at `p` and is followed by 11 id characters, which are the
   * captured group. The two alternatives start with different characters,
   * so at most one of them can apply at a given position.
   */
  function MatchAt(url: string, p: nat): (m: Option<string>)
    ensures m.Some? ==> IsVideoId(m.value)
  {
    if p + 2 + IdLength <= |url| && url[p] == 'v' && url[p + 1] == '='
       && AllIdChars(url[p + 2..p + 2 + IdLength]) then
      Some(url[p + 2..p + 2 + IdLength])
    else if p + 1 + IdLength <= |url| && url[p] == '/' && AllIdChars(url[p + 1..p + 1 + IdLength]) then
      Some(url[p + 1..p + 1 + IdLength])
    else
      None
  }

  /** No start position in `[from, to)` matches. */
  predicate NoMatchIn(url: string, from: nat, to: nat) {
    forall q :: from <= q < to ==> MatchAt(url, q).None?
  }

  /**
   * The search of `re.search`, trying start positions from `p` upwards and
   * yielding the group of the first one that matches, or "" when none does.
   */
  function SearchFrom(url: string, p: nat): (r: string)
    requires p <= |url|
    ensures r == "" || IsVideoId(r)
    decreases |url| - p
  {
    if p == |url| then ""
    else
      match MatchAt(url, p)
      case Some(id) => id
      case None => SearchFrom(url, p + 1)
  }

  /**
   * The search from `p` returns "" exactly when no position from `p` on
   * matches, and otherwise the group of a matching position with no match
   * between `p` and it: the leftmost match.
   */
  lemma {:induction false} SearchFromFindsLeftmost(url: string, p: nat)
    requires p <= |url|
    ensures SearchFrom(url, p) == "" <==> NoMatchIn(url, p, |url|)
    ensures SearchFrom(url, p) != "" ==>
              exists q :: p <= q < |url| && MatchAt(url, q) == Some(SearchFrom(url, p)) && NoMatchIn(url, p, q)
    decreases |url| - p
  {
    if p < |url| {
      match MatchAt(url, p)
      case Some(id) =>
        assert SearchFrom(url, p) == id != "";
        assert NoMatchIn(url, p, p);
      case None =>
        SearchFromFindsLeftmost(url, p + 1);
        var r := SearchFrom(url, p + 1);
        if r != "" {
          var q :| p + 1 <= q < |url| && MatchAt(url, q) == Some(r) && NoMatchIn(url, p + 1, q);
          assert NoMatchIn(url, p, q);
        }
    }
  }

  /** `extract_youtube_video_id`: the captured id of the leftmost match, or "" when there is none. */
  function ExtractYoutubeVideoId(url: string): (r: string)
    ensures r == "" || IsVideoId(r)
    ensures r == "" <==> NoMatchIn(url, 0, |url|)
    ensures r != "" ==> exists q :: 0 <= q < |url| && MatchAt(url, q) == Some(r) && NoMatchIn(url, 0, q)
  {
    SearchFromFindsLeftmost(url, 0);
    SearchFrom(url, 0)
  }

  /** Any match at `q` lies inside the string, so no position at or past the end matches. */
  lemma MatchInside(url: string, q: nat)
    requires MatchAt(url, q).Some?
    ensures q < |url|
  {
  }

  /** The leftmost match determines the result: a match at `p` with none before it is what is returned. */
  lemma {:induction false} LeftmostMatchIsResult(url: string, p: nat, id: string)
    requires MatchAt(url, p) == Some(id)
    requires NoMatchIn(url, 0, p)
    ensures ExtractYoutubeVideoId(url) == id
  {
    MatchInside(url, p);
    SearchFromSkips(url, 0, p);
  }

  /** Searching from `from` where no position in `[from, p)` matches is searching from `p`. */
  lemma {:induction false} SearchFromSkips(url: string, from: nat, p: nat)
    requires from <= p <= |url|
    requires NoMatchIn(url, from, p)
    ensures SearchFrom(url, from) == SearchFrom(url, p)
    decreases p - from
  {
    if from < p {
      SearchFromSkips(url, from + 1, p);
    }
  }

  /** A match at `q` reads only the first `q + 13` characters. */
  lemma MatchAtPrefix(url: string, suffix: string, q: nat)
    requires q + 2 + IdLength <= |url|
    ensures MatchAt(url + suffix, q) == MatchAt(url, q)
  {
    var u := url + suffix;
    assert u[q] == url[q] && u[q + 1] == url[q + 1];
    assert u[q + 2..q + 2 + IdLength] == url[q + 2..q + 2 + IdLength];
    assert u[q + 1..q + 1 + IdLength] == url[q + 1..q + 1 + IdLength];
  }

  /** A match at `q`, of either alternative, is still a match once text is appended to the URL. */
  lemma MatchSurvivesAppend(url: string, suffix: string, q: nat)
    requires MatchAt(url, q).Some?
    ensures MatchAt(url + suffix, q) == MatchAt(url, q)
  {
    var u := url + suffix;
    if q + 2 + IdLength <= |url| {
      MatchAtPrefix(url, suffix, q);
    } else {
      assert url[q] == '/';
      assert u[q] == '/';
      assert u[q + 1..q + 1 + IdLength] == url[q + 1..q + 1 + IdLength];
    }
  }

  /**
   * Text after a found id is ignored: once a URL yields an id, appending
   * anything to it yields the same id (the trailing `.*` of the pattern).
   */
  lemma TrailingTextIgnored(url: string, suffix: string)
    requires ExtractYoutubeVideoId(url) != ""
    ensures ExtractYoutubeVideoId(url + suffix) == ExtractYoutubeVideoId(url)
  {
    var id := ExtractYoutubeVideoId(url);
    var p :| 0 <= p < |url| && MatchAt(url, p) == Some(id) && NoMatchIn(url, 0, p);
    MatchSurvivesAppend(url, suffix, p);
    forall q | 0 <= q < p
      ensures MatchAt(url + suffix, q).None?
    {
      // the window of any earlier start position ends no later than that of the match at p
      assert q + 2 + IdLength <= |url|;
      MatchAtPrefix(url, suffix, q);
    }
    LeftmostMatchIsResult(url + suffix, p, id);
  }

  /** Neither alternative of the pattern can start at a character other than `v` and `/`. */
  lemma NoMarkerAt(url: string, q: nat)
    requires q < |url| && url[q] != '/' && url[q] != 'v'
    ensures MatchAt(url, q).None?
  {
  }

  /** A `/` whose next 11 characters include a non-id character `url[k]` does not match. */
  lemma SlashWithoutId(url: string, q: nat, k: nat)
    requires q < k <= q + IdLength && k < |url|
    requires url[q] == '/' && !IsIdChar(url[k])
    ensures MatchAt(url, q).None?
  {
    if q + 1 + IdLength <= |url| {
      assert url[q + 1..q + 1 + IdLength][k - q - 1] == url[k];
    }
  }

  /** The URL of the backend's smoke script. */
  const WatchUrl: string := "https://www.youtube.com/watch?v=" + "M988_fsOSWo"

  /** The smoke-script URL matches at its `v=`, position 30. */
  lemma WatchUrlMatch()
    ensures MatchAt(WatchUrl, 30) == Some("M988_fsOSWo")
  {
    var front := "https://www.youtube.com/watch?v=";
    var id := "M988_fsOSWo";
    assert |front| == 32 && WatchUrl[32..] == id;
    assert WatchUrl[30] == 'v' && WatchUrl[31] == '=';
    assert |WatchUrl| == 43 && WatchUrl[32..43] == id;
    assert AllIdChars(id);
  }

  /** No position of the smoke-script URL before its `v=` matches. */
  lemma WatchUrlNoEarlierMatch()
    ensures NoMatchIn(WatchUrl, 0, 30)
  {
    var url := WatchUrl;
    assert url[6] == '/' && url[7] == '/' && url[11] == '.' && url[23] == '/' && url[29] == '?';
    assert forall i :: 0 <= i < 6 ==> url[i] != '/' && url[i] != 'v';
    assert forall i :: 8 <= i < 23 ==> url[i] != '/' && url[i] != 'v';
    assert forall i :: 24 <= i < 30 ==> url[i] != '/' && url[i] != 'v';
    forall q | 0 <= q < 30 ensures MatchAt(url, q).None? {
      if q == 6 {
        SlashWithoutId(url, 6, 7);
      } else if q == 7 {
        SlashWithoutId(url, 7, 11);
      } else if q == 23 {
        SlashWithoutId(url, 23, 29);
      } else {
        NoMarkerAt(url, q);
      }
    }
  }

  /** The smoke-script URL yields the id after `v=`, not anything after its earlier slashes. */
  lemma WatchUrlExample()
    ensures ExtractYoutubeVideoId(WatchUrl) == "M988_fsOSWo"
  {
    WatchUrlMatch();
    WatchUrlNoEarlierMatch();
    LeftmostMatchIsResult(WatchUrl, 30, "M988_fsOSWo");
  }

  /**
   * `process_video` rejects a URL from which no id can be extracted with
   * HTTP 400 "Invalid YouTube URL".
   */
  function ValidateVideoUrl(url: string): (r: Result<string, string>)
    ensures r.Ok? <==> !NoMatchIn(url, 0, |url|)
    ensures r.Ok? ==> IsVideoId(r.value)
    ensures r.Err? ==> r.error == "Invalid YouTube URL"
  {
    var videoId := ExtractYoutubeVideoId(url);
    if videoId == "" then Err("Invalid YouTube URL") else Ok(videoId)
  }

  // ---------------------------------------------------------------------------
  // Transcript-fetch failures

  /** Python's `sub in s` for strings: `sub` occurs in `s` at some index. */
  predicate Contains(s: string, sub: string) {
    exists i :: 0 <= i <= |s| && StartsAt(s[i..], sub)
  }

  /** `p` is a prefix of `s`. */
  predicate StartsAt(s: string, p: string) {
    |p| <= |s| && s[..|p|] == p
  }

  // The two user messages. Each is one string literal in `get_youtube_transcript`;
  // they are written here in pieces only so that the verifier can reason
  // about their characters.

  const BlockingMessage: string :=
    "YouTube is blocking" + " requests from this server's IP address "
    + "(a common restriction for free cloud platforms). "
    + "Please try the PDF upload feature instead!"

  const SubtitlesMessage: string :=
    "Could not fetch " + "transcript. Make " + "sure the video " + "has public " + "English subtitles."

  /** The two markers in an exception's text that identify YouTube refusing the server. */
  predicate IsBlockingError(err: string) {
    Contains(err, "YouTube is blocking requests") || Contains(err, "cloud provider")
  }

  /**
   * The `except` branch of `get_youtube_transcript`: the pair (transcript,
   * message) returned for an exception whose text is `err`.
   */
  function TranscriptFailure(err: string): (r: (string, string))
    ensures r.0 == ""
    ensures r.1 == BlockingMessage <==> IsBlockingError(err)
    ensures r.1 == SubtitlesMessage <==> !IsBlockingError(err)
  {
    if Contains(err, "YouTube is blocking requests") || Contains(err, "cloud provider") then
      ("", BlockingMessage)
    else
      ("", SubtitlesMessage)
  }

  /** A pattern whose first character does not occur in `s` does not occur in `s`. */
  lemma AbsentFirstChar(s: string, sub: string)
    requires |sub| > 0 && sub[0] !in s
    ensures !Contains(s, sub)
  {
    forall i | 0 <= i <= |s|
      ensures !StartsAt(s[i..], sub)
    {
      if i < |s| && |sub| <= |s| - i {
        assert s[i] in s;
        assert s[i..][..|sub|][0] == s[i] != sub[0];
      }
    }
  }

  /**
   * Of the two messages, only the blocking one contains the phrase
   * "YouTube is blocking", so the phrase in the message tells exactly
   * which branch produced it.
   */
  lemma BlockingPhraseExactlyWhenBlocked(err: string)
    ensures Contains(TranscriptFailure(err).1, "YouTube is blocking") <==> IsBlockingError(err)
  {
    assert StartsAt(BlockingMessage[0..], "YouTube is blocking");
    assert 'Y' !in "Could not fetch " && 'Y' !in "transcript. Make " && 'Y' !in "sure the video ";
    assert 'Y' !in "has public " && 'Y' !in "English subtitles.";
    AbsentFirstChar(SubtitlesMessage, "YouTube is blocking");
  }
}
