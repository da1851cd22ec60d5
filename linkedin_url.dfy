/** Profile-URL handling of the LinkedIn service: the validator
    `isValidLinkedInUrl` (the anchored pattern
    `^https:\/\/(www\.)?linkedin\.com\/in\/[a-zA-Z0-9-]+\/?(\?.*)?$`, case-sensitive)
    and `extractLinkId`, which validates and then pulls out the profile id. */
module LinkedInUrl {
  import opened Wrappers

  const Scheme: string := "https://"
  const Www: string := "www."
  const Host: string := "linkedin.com"
  /** What the validator requires right after the optional `www.`. */
  const HostAndMarker: string := Host + "/in/"

  const InvalidUrlMessage: string := "Invalid LinkedIn URL provided"
  const NoLinkIdMessage: string := "Could not extract LinkedIn ID from URL"

  /** The character class `[a-zA-Z0-9-]` of a profile id. */
  predicate IsIdChar(c: char) {
    ('a' <= c <= 'z') || ('A' <= c <= 'Z') || ('0' <= c <= '9') || c == '-'
  }

  /** The characters JavaScript's `.` does not match without the `s` flag. */
  predicate IsLineTerminator(c: char) {
    c == '\n' || c == '\r' || c == '\U{2028}' || c == '\U{2029}'
  }

  predicate StartsWith(s: string, prefix: string) {
    |prefix| <= |s| && s[..|prefix|] == prefix
  }

  /** Length of the longest prefix of `s` made of id characters (the greedy
      `[a-zA-Z0-9-]+`). */
  function IdRunLength(s: string): (n: nat)
    ensures n <= |s|
    ensures forall k :: 0 <= k < n ==> IsIdChar(s[k])
    ensures n < |s| ==> !IsIdChar(s[n])
  {
    if |s| > 0 && IsIdChar(s[0]) then 1 + IdRunLength(s[1..]) else 0
  }

  /** `(\?.*)?$`: nothing, or `?` followed by characters other than line
      terminators up to the end. */
  predicate IsQuerySuffix(s: string) {
    s == [] || (s[0] == '?' && forall k :: 1 <= k < |s| ==> !IsLineTerminator(s[k]))
  }

  /** `[a-zA-Z0-9-]+\/?(\?.*)?$`, the part after `/in/`. The id run is
      maximal: the character after it is `/`, `?` or the end. */
  predicate IsProfileTail(t: string) {
    var n := IdRunLength(t);
    && n > 0
    && var rest := t[n..];
       if |rest| > 0 && rest[0] == '/' then IsQuerySuffix(rest[1..]) else IsQuerySuffix(rest)
  }

  /** `(www\.)?` resolved one way or the other: `s` starts with the host part
      for that choice and the rest is a profile tail. */
  predicate MatchesHostAndTail(s: string, www: bool) {
    StartsWith(s, HostPart(www)) && IsProfileTail(s[|HostPart(www)|..])
  }

  /** `isValidLinkedInUrl(url)` */
  predicate IsValidLinkedInUrl(url: string) {
    && StartsWith(url, Scheme)
    && (MatchesHostAndTail(url[|Scheme|..], true) || MatchesHostAndTail(url[|Scheme|..], false))
  }

  /** `linkedin.com/in/`, with `www.` in front when asked for. */
  function HostPart(www: bool): string {
    if www then Www + HostAndMarker else HostAndMarker
  }

  // ---------------------------------------------------------------------
  // The language of the pattern, spelled out part by part

  /** The parts a profile URL is made of, in order. */
  datatype ProfileUrl = ProfileUrl(www: bool, id: string, trailingSlash: bool, query: Option<string>)

  /** The parts form a URL the pattern is meant to describe: a non-empty id of
      id characters, and a query without line terminators. */
  ghost predicate WellFormed(p: ProfileUrl) {
    && |p.id| > 0
    && (forall k :: 0 <= k < |p.id| ==> IsIdChar(p.id[k]))
    && (p.query.Some? ==> forall k :: 0 <= k < |p.query.value| ==> !IsLineTerminator(p.query.value[k]))
  }

  /** What follows the id: the optional `/`, then the optional `?query`. */
  function Suffix(p: ProfileUrl): string {
    (if p.trailingSlash then "/" else "") + (match p.query case None => "" case Some(q) => "?" + q)
  }

  function ToUrl(p: ProfileUrl): string {
    Scheme + HostPart(p.www) + p.id + Suffix(p)
  }

  lemma ConcatAssoc(a: string, b: string, c: string)
    ensures a + b + c == a + (b + c)
  {
  }

  lemma StartsWithConcat(a: string, b: string)
    ensures StartsWith(a + b, a) && (a + b)[|a|..] == b
  {
  }

  lemma PrefixSplit(s: string, prefix: string)
    requires StartsWith(s, prefix)
    ensures s == prefix + s[|prefix|..]
  {
  }

  /** The part of the URL after `/in/`, taken apart at the end of the id run. */
  lemma TailOfParts(p: ProfileUrl)
    requires WellFormed(p)
    ensures IsProfileTail(p.id + Suffix(p))
    ensures IdRunLength(p.id + Suffix(p)) == |p.id|
  {
    var t := p.id + Suffix(p);
    IdRunOfPrefix(p.id, Suffix(p));
    assert t[|p.id|..] == Suffix(p);
    var rest := Suffix(p);
    if p.trailingSlash {
      assert rest[1..] == (match p.query case None => "" case Some(q) => "?" + q);
    }
  }

  /** An id run followed by a non-id character (or the end) is measured
      exactly. */
  lemma {:induction false} IdRunOfPrefix(id: string, rest: string)
    requires forall k :: 0 <= k < |id| ==> IsIdChar(id[k])
    requires rest == [] || !IsIdChar(rest[0])
    ensures IdRunLength(id + rest) == |id|
  {
    if id != [] {
      assert (id + rest)[1..] == id[1..] + rest;
      IdRunOfPrefix(id[1..], rest);
    }
  }

  /** A URL made of the scheme, the host part and a valid tail passes the
      validator. */
  lemma ValidatorAcceptsSplit(url: string, www: bool, tail: string)
    requires url == Scheme + HostPart(www) + tail && IsProfileTail(tail)
    ensures IsValidLinkedInUrl(url)
  {
    ConcatAssoc(Scheme, HostPart(www), tail);
    StartsWithConcat(Scheme, HostPart(www) + tail);
    StartsWithConcat(HostPart(www), tail);
    assert MatchesHostAndTail(url[|Scheme|..], www);
  }

  /** Every URL built from well-formed parts passes the validator. */
  lemma ValidatorAcceptsParts(p: ProfileUrl)
    requires WellFormed(p)
    ensures IsValidLinkedInUrl(ToUrl(p))
  {
    TailOfParts(p);
    ConcatAssoc(Scheme + HostPart(p.www), p.id, Suffix(p));
    ValidatorAcceptsSplit(ToUrl(p), p.www, p.id + Suffix(p));
  }

  /** The parts of a `[a-zA-Z0-9-]+\/?(\?.*)?` tail (`www` left false). */
  function ParseTail(tail: string): (p: ProfileUrl)
    requires IsProfileTail(tail)
    ensures WellFormed(p) && !p.www && p.id + Suffix(p) == tail
  {
    var n := IdRunLength(tail);
    var rest := tail[n..];
    var slash := |rest| > 0 && rest[0] == '/';
    var q := if slash then rest[1..] else rest;
    var p := ProfileUrl(false, tail[..n], slash, if q == [] then None else Some(q[1..]));
    assert Suffix(p) == rest by {
      if slash {
        assert rest == "/" + q;
      }
      if q != [] {
        assert q == "?" + q[1..];
      }
    }
    assert tail == tail[..n] + rest;
    p
  }

  /** The parts of a URL the validator accepts: the URL is the one built from
      them. */
  function ParseProfileUrl(url: string): (p: ProfileUrl)
    requires IsValidLinkedInUrl(url)
    ensures WellFormed(p) && ToUrl(p) == url
  {
    var afterScheme := url[|Scheme|..];
    var www := MatchesHostAndTail(afterScheme, true);
    var tail := afterScheme[|HostPart(www)|..];
    var p := ParseTail(tail).(www := www);
    assert ToUrl(p) == url by {
      PrefixSplit(url, Scheme);
      PrefixSplit(afterScheme, HostPart(www));
      ConcatAssoc(Scheme, HostPart(www), tail);
      ConcatAssoc(Scheme + HostPart(www), p.id, Suffix(p));
    }
    p
  }

  /** The validator accepts exactly the URLs built from well-formed parts. */
  lemma ValidatorMatchesPattern(url: string)
    ensures IsValidLinkedInUrl(url) <==> exists p :: WellFormed(p) && ToUrl(p) == url
  {
    if IsValidLinkedInUrl(url) {
      var p := ParseProfileUrl(url);
    }
    if p :| WellFormed(p) && ToUrl(p) == url {
      ValidatorAcceptsParts(p);
    }
  }

  /** Parsing a built URL recovers its parts: a URL is built from exactly
      one choice of parts. */
  lemma ParseToUrl(p: ProfileUrl)
    requires WellFormed(p)
    ensures IsValidLinkedInUrl(ToUrl(p)) && ParseProfileUrl(ToUrl(p)) == p
  {
    ValidatorAcceptsParts(p);
    var url := ToUrl(p);
    var p' := ParseProfileUrl(url);
    PartsDetermined(p, p');
  }

  lemma PartsDetermined(p: ProfileUrl, p': ProfileUrl)
    requires WellFormed(p) && WellFormed(p') && ToUrl(p) == ToUrl(p')
    ensures p == p'
  {
    var url := ToUrl(p);
            // `www.` and `linkedin.com/in/` differ at their first character
    assert url[|Scheme|] == (if p.www then 'w' else 'l');
    assert url[|Scheme|] == (if p'.www then 'w' else 'l');
    var head := Scheme + HostPart(p.www);
    assert url == head + (p.id + Suffix(p));
    assert url == head + (p'.id + Suffix(p'));
    assert url[|head|..] == p.id + Suffix(p);
    TailDetermined(p, p');
  }

  /** The tail after `/in/` determines the id, the trailing slash and the
      query. */
  lemma TailDetermined(p: ProfileUrl, p': ProfileUrl)
    requires WellFormed(p) && WellFormed(p')
    requires p.id + Suffix(p) == p'.id + Suffix(p')
    ensures p.id == p'.id && p.trailingSlash == p'.trailingSlash && p.query == p'.query
  {
    var tail := p.id + Suffix(p);
    TailOfParts(p);
    TailOfParts(p');
    assert p.id == tail[..|p.id|];
    assert p'.id == tail[..|p'.id|];
    assert Suffix(p) == Suffix(p') by {
      assert Suffix(p) == tail[|p.id|..];
      assert Suffix(p') == tail[|p'.id|..];
    }
    var s := Suffix(p);
    assert p.trailingSlash == p'.trailingSlash by {
      assert p.trailingSlash ==> s[0] == '/';
      assert p'.trailingSlash ==> s[0] == '/';
      assert !p.trailingSlash && s != [] ==> s[0] == '?';
      assert !p'.trailingSlash && s != [] ==> s[0] == '?';
    }
    var q := if p.trailingSlash then s[1..] else s;
    assert q == (match p.query case None => "" case Some(v) => "?" + v);
    assert q == (match p'.query case None => "" case Some(v) => "?" + v);
    if p.query.Some? {
      assert p.query.value == q[1..];
    }
    if p'.query.Some? {
      assert p'.query.value == q[1..];
    }
  }

  // ---------------------------------------------------------------------
  // extractLinkId

  predicate IsCaptureChar(c: char) {
    c != '/' && c != '?'
  }

  /** Length of the greedy `[^\/\?]+` run at the start of `s`. */
  function CaptureLength(s: string): (n: nat)
    ensures n <= |s|
    ensures forall k :: 0 <= k < n ==> IsCaptureChar(s[k])
    ensures n < |s| ==> !IsCaptureChar(s[n])
  {
    if |s| > 0 && IsCaptureChar(s[0]) then 1 + CaptureLength(s[1..]) else 0
  }

  /** Does `/\/in\/([^\/\?]+)/` match at position `i` of `s`? */
  predicate MarkerMatchesAt(s: string, i: nat) {
    i + 5 <= |s| && s[i..i + 4] == "/in/" && IsCaptureChar(s[i + 4])
  }

  /** `s.match(/\/in\/([^\/\?]+)/)` searched from position `i`: the first
      group of the leftmost match, if there is one. */
  function MatchFrom(s: string, i: nat): (r: Option<string>)
    requires i <= |s|
    ensures r.Some? ==> |r.value| > 0 && forall k :: 0 <= k < |r.value| ==> IsCaptureChar(r.value[k])
    decreases |s| - i
  {
    if i + 5 > |s| then None
    else if MarkerMatchesAt(s, i) then Some(s[i + 4..][..CaptureLength(s[i + 4..])])
    else MatchFrom(s, i + 1)
  }

  /** `extractLinkId(url)`: a thrown error becomes `Failure(message)`. */
  function ExtractLinkId(url: string): (r: Result<string, string>)
    ensures !IsValidLinkedInUrl(url) ==> r == Failure(InvalidUrlMessage)
  {
    if !IsValidLinkedInUrl(url) then Failure(InvalidUrlMessage)
    else match MatchFrom(url, 0)
      case None => Failure(NoLinkIdMessage)
      case Some(id) => Success(id)
  }

  /** The search skips positions where the pattern does not match. */
  lemma {:induction false} MatchFromSkips(s: string, i: nat, j: nat)
    requires i <= j <= |s|
    requires forall k :: i <= k < j ==> !MarkerMatchesAt(s, k)
    ensures MatchFrom(s, i) == MatchFrom(s, j)
    decreases j - i
  {
    if i < j {
      MatchFromSkips(s, i + 1, j);
    }
  }

  /** The search finds a match exactly when the pattern matches somewhere
      from `i` on, and then returns the greedy group of the leftmost match. */
  lemma {:induction false} MatchFromLeftmost(s: string, i: nat)
    requires i <= |s|
    ensures MatchFrom(s, i).Some? <==> exists k :: i <= k < |s| && MarkerMatchesAt(s, k)
    ensures MatchFrom(s, i).Some? ==>
              exists k :: && i <= k < |s| && MarkerMatchesAt(s, k)
                          && (forall j :: i <= j < k ==> !MarkerMatchesAt(s, j))
                          && MatchFrom(s, i).value == s[k + 4..][..CaptureLength(s[k + 4..])]
    decreases |s| - i
  {
    var r := MatchFrom(s, i);
    if i + 5 > |s| {
      assert r == None;
    } else if MarkerMatchesAt(s, i) {
      assert r == Some(s[i + 4..][..CaptureLength(s[i + 4..])]);
    } else {
      assert r == MatchFrom(s, i + 1);
      MatchFromLeftmost(s, i + 1);
      if r.Some? {
        var k :| && i + 1 <= k < |s| && MarkerMatchesAt(s, k)
                 && (forall j :: i + 1 <= j < k ==> !MarkerMatchesAt(s, j))
                 && r.value == s[k + 4..][..CaptureLength(s[k + 4..])];
        assert forall j :: i <= j < k ==> !MarkerMatchesAt(s, j);
      }
    }
  }

  /** What a built URL holds before `/in/`. */
  function Origin(www: bool): string {
    Scheme + (if www then Www else "") + Host
  }

  /** Every `/` before `/in/` is followed by something other than `i`. */
  lemma OriginHasNoMarker(www: bool)
    ensures forall j :: 0 <= j < |Origin(www)| && Origin(www)[j] == '/' ==>
              j + 1 < |Origin(www)| && Origin(www)[j + 1] != 'i'
  {
    if www {
      assert Origin(www) == "https://www.linkedin.com";
    } else {
      assert Origin(www) == "https://linkedin.com";
    }
  }

  /** The extraction pattern cannot match at a position inside a prefix
      where no `/` is followed by `i`. */
  lemma NoMarkerInPrefix(s: string, head: string, k: nat)
    requires |head| <= |s| && s[..|head|] == head && k < |head|
    requires forall j :: 0 <= j < |head| && head[j] == '/' ==> j + 1 < |head| && head[j + 1] != 'i'
    ensures !MarkerMatchesAt(s, k)
  {
    assert s[k] == head[k];
    if s[k] == '/' {
      assert s[k + 1] == head[k + 1];
    }
    if k + 4 <= |s| {
      assert s[k..k + 4][0] == s[k] && s[k..k + 4][1] == s[k + 1];
    }
  }

  /** Behind a head where no `/` is followed by `i`, the leftmost match is
      the `/in/` right after the head, and its group is the capture run of
      what follows. */
  lemma MatchAfterHead(head: string, tail: string)
    requires forall j :: 0 <= j < |head| && head[j] == '/' ==> j + 1 < |head| && head[j + 1] != 'i'
    requires tail != [] && IsCaptureChar(tail[0])
    ensures MatchFrom(head + ("/in/" + tail), 0) == Some(tail[..CaptureLength(tail)])
  {
    var s := head + ("/in/" + tail);
    var m := |head|;
    forall k | 0 <= k < m
      ensures !MarkerMatchesAt(s, k)
    {
      NoMarkerInPrefix(s, head, k);
    }
    MatchFromSkips(s, 0, m);
    assert s[m..] == "/in/" + tail;
    assert s[m..m + 4] == "/in/";
    assert s[m + 4..] == tail;
  }

  /** In a built URL the leftmost match of the extraction pattern is the one
      right after the host, and its group is the id. */
  lemma MatchInParts(p: ProfileUrl)
    requires WellFormed(p)
    ensures MatchFrom(ToUrl(p), 0) == Some(p.id)
  {
    var tail := p.id + Suffix(p);
    var head := Origin(p.www);
    assert HostPart(p.www) == (if p.www then Www else "") + Host + "/in/";
    assert Scheme + HostPart(p.www) == head + "/in/";
    ConcatAssoc(head, "/in/", tail);
    ConcatAssoc(Scheme + HostPart(p.www), p.id, Suffix(p));
    OriginHasNoMarker(p.www);
    CaptureOfTail(p);
    MatchAfterHead(head, tail);
    assert tail[..|p.id|] == p.id;
  }

  lemma ExtractFromParts(p: ProfileUrl)
    requires WellFormed(p)
    ensures ExtractLinkId(ToUrl(p)) == Success(p.id)
  {
    ValidatorAcceptsParts(p);
    MatchInParts(p);
  }

  lemma CaptureOfTail(p: ProfileUrl)
    requires WellFormed(p)
    ensures CaptureLength(p.id + Suffix(p)) == |p.id|
  {
    CaptureRunOfPrefix(p.id, Suffix(p));
  }

  lemma {:induction false} CaptureRunOfPrefix(id: string, rest: string)
    requires forall k :: 0 <= k < |id| ==> IsIdChar(id[k])
    requires rest == [] || !IsCaptureChar(rest[0])
    ensures CaptureLength(id + rest) == |id|
  {
    if id != [] {
      assert (id + rest)[1..] == id[1..] + rest;
      CaptureRunOfPrefix(id[1..], rest);
    }
  }

  /** For every URL the validator accepts, extraction succeeds and returns the
      id segment: non-empty, made of id characters, with the trailing `/` and
      the query stripped. The "could not extract" error is unreachable. */
  lemma ExtractLinkIdOfValid(url: string)
    requires IsValidLinkedInUrl(url)
    ensures ExtractLinkId(url) == Success(ParseProfileUrl(url).id)
    ensures var id := ExtractLinkId(url).value;
            |id| > 0 && forall k :: 0 <= k < |id| ==> IsIdChar(id[k])
  {
    ExtractFromParts(ParseProfileUrl(url));
  }

  /** Round trip: building a URL from an id (with or without `www.`, a
      trailing `/` and a query) and extracting from it gives the id back. */
  lemma ExtractRoundTrip(www: bool, id: string, trailingSlash: bool, query: Option<string>)
    requires |id| > 0 && forall k :: 0 <= k < |id| ==> IsIdChar(id[k])
    requires query.Some? ==> forall k :: 0 <= k < |query.value| ==> !IsLineTerminator(query.value[k])
    ensures var url := ToUrl(ProfileUrl(www, id, trailingSlash, query));
            IsValidLinkedInUrl(url) && ExtractLinkId(url) == Success(id)
  {
    var p := ProfileUrl(www, id, trailingSlash, query);
    ValidatorAcceptsParts(p);
    ExtractFromParts(p);
  }

  /** Extraction fails exactly on the URLs the validator rejects, and then
      with the validation message. */
  lemma ExtractFailsOnlyOnInvalid(url: string)
    ensures ExtractLinkId(url).Failure? <==> !IsValidLinkedInUrl(url)
    ensures ExtractLinkId(url).Failure? ==> ExtractLinkId(url).error == InvalidUrlMessage
  {
    if IsValidLinkedInUrl(url) {
      ExtractLinkIdOfValid(url);
    }
  }

  /** Behind the scheme and the host part, the validator judges the tail
      alone: the `www.` choice is fixed by the first character. */
  lemma ValidatorJudgesTail(www: bool, tail: string)
    ensures IsValidLinkedInUrl(Scheme + HostPart(www) + tail) <==> IsProfileTail(tail)
  {
    var url := Scheme + HostPart(www) + tail;
    var afterScheme := url[|Scheme|..];
    assert afterScheme == HostPart(www) + tail;
    assert afterScheme[|HostPart(www)|..] == tail;
    assert afterScheme[0] == HostPart(www)[0];
    MismatchAt(afterScheme, HostPart(!www), 0);
  }

  lemma MismatchAt(s: string, prefix: string, k: nat)
    requires k < |s| && k < |prefix| && s[k] != prefix[k]
    ensures !StartsWith(s, prefix)
  {
    if |prefix| <= |s| {
      assert s[..|prefix|][k] == s[k];
    }
  }

  /** The two spellings of everything before the id. */
  lemma HeadText()
    ensures Scheme + HostPart(true) == "https://www.linkedin.com/in/"
    ensures Scheme + HostPart(false) == "https://linkedin.com/in/"
  {
  }

  /** The profile URL of the scraper test script, built from its parts. */
  lemma ExampleUrlText()
    ensures ToUrl(ProfileUrl(true, "seid-adem-682a3b17a", true, None))
         == "https://www.linkedin.com/in/seid-adem-682a3b17a/"
  {
    HeadText();
    assert "https://www.linkedin.com/in/" + "seid-adem-682a3b17a" + ("/" + "")
        == "https://www.linkedin.com/in/seid-adem-682a3b17a/";
  }

  /** The profile URL of the scraper test script and the id it yields. */
  lemma ExampleProfileUrl()
    ensures ExtractLinkId("https://www.linkedin.com/in/seid-adem-682a3b17a/") == Success("seid-adem-682a3b17a")
  {
    ExampleUrlText();
    ExtractFromParts(ProfileUrl(true, "seid-adem-682a3b17a", true, None));
  }

  /** `http://` is not `https://`. */
  lemma RejectsHttp()
    ensures !IsValidLinkedInUrl("http://linkedin.com/in/jane")
  {
    MismatchAt("http://linkedin.com/in/jane", Scheme, 4);
  }

  /** The scheme and the host are matched case-sensitively. */
  lemma RejectsUpperCase()
    ensures !IsValidLinkedInUrl("HTTPS://LINKEDIN.COM/in/jane")
  {
    MismatchAt("HTTPS://LINKEDIN.COM/in/jane", Scheme, 0);
  }

  /** Only `linkedin.com` and `www.linkedin.com` are accepted hosts. */
  lemma RejectsOtherHost()
    ensures !IsValidLinkedInUrl("https://uk.linkedin.com/in/jane")
  {
    var afterScheme := "https://uk.linkedin.com/in/jane"[8..];
    assert afterScheme[0] == 'u';
    MismatchAt(afterScheme, HostPart(true), 0);
    MismatchAt(afterScheme, HostPart(false), 0);
  }

  /** Only `/in/` profile paths are accepted. */
  lemma RejectsOtherPath()
    ensures !IsValidLinkedInUrl("https://linkedin.com/company/acme")
  {
    var afterScheme := "https://linkedin.com/company/acme"[8..];
    assert afterScheme[13] == 'c';
    MismatchAt(afterScheme, HostPart(true), 0);
    MismatchAt(afterScheme, HostPart(false), 13);
  }

  /** The id must not be empty. */
  lemma RejectsEmptyId()
    ensures !IsValidLinkedInUrl("https://linkedin.com/in/")
  {
    HeadText();
    ValidatorJudgesTail(false, "");
    assert "https://linkedin.com/in/" + "" == "https://linkedin.com/in/";
  }

  // The examples below put the URL together from its head, `Scheme +
  // HostPart(false)` (that is `https://linkedin.com/in/`), and a tail.

  /** `_` is not an id character: `https://linkedin.com/in/jane_doe`. */
  lemma RejectsForeignIdChar()
    ensures !IsValidLinkedInUrl(Scheme + HostPart(false) + "jane_doe")
  {
    RejectedTail(false, "jane_doe", 4);
  }

  /** Nothing but a query may follow the id and its optional `/`:
      `https://linkedin.com/in/jane/details`. */
  lemma RejectsExtraSegment()
    ensures !IsValidLinkedInUrl(Scheme + HostPart(false) + "jane/details")
  {
    RejectedTail(false, "jane/details", 4);
  }

  /** A fragment is accepted only inside a query, after `?`:
      `https://linkedin.com/in/jane#about`. */
  lemma RejectsBareFragment()
    ensures !IsValidLinkedInUrl(Scheme + HostPart(false) + "jane#about")
  {
    RejectedTail(false, "jane#about", 4);
  }

  /** The query must not contain a line terminator:
      `https://linkedin.com/in/jane?a` + line feed + `b`. */
  lemma RejectsLineBreakInQuery()
    ensures !IsValidLinkedInUrl(Scheme + HostPart(false) + "jane?a\nb")
  {
    var tail := "jane?a\nb";
    assert IsLineTerminator(tail[4..][2]);
    RejectedTail(false, tail, 4);
  }

  /** The head, with or without `www.`, then a tail whose id run ends at
      `n` and whose remainder is neither a query nor `/` and a query. */
  lemma RejectedTail(www: bool, tail: string, n: nat)
    requires 0 < n < |tail| && !IsIdChar(tail[n])
    requires forall k :: 0 <= k < n ==> IsIdChar(tail[k])
    requires !IsQuerySuffix(tail[n..])
    requires tail[n] == '/' ==> !IsQuerySuffix(tail[n + 1..])
    ensures !IsValidLinkedInUrl(Scheme + HostPart(www) + tail)
  {
    var id, rest := tail[..n], tail[n..];
    assert tail == id + rest;
    assert forall k :: 0 <= k < |id| ==> id[k] == tail[k];
    assert rest[0] == tail[n];
    IdRunOfPrefix(id, rest);
    ValidatorJudgesTail(www, tail);
  }

  /** A `#` is accepted once a `?` has started the query. */
  lemma AcceptedQueryWithHash()
    ensures IsValidLinkedInUrl("https://linkedin.com/in/jane/?ref=x#top")
  {
    var p := ProfileUrl(false, "jane", true, Some("ref=x#top"));
    assert ToUrl(p) == "https://linkedin.com/in/jane/?ref=x#top";
    ValidatorAcceptsParts(p);
  }
}
