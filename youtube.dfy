/**
  The YouTube URL helpers of the comment-analysis screens: the start-anchored validator
  `^(https?://)?(www\.)?(youtube\.com/watch\?v=|youtu\.be/|youtube\.com/embed/)([a-zA-Z0-9_-]{11})`,
  the unanchored video-id search
  `(?:youtube\.com/watch\?v=|youtu\.be/|youtube\.com/embed/)([^&\n?#]+)`, and the thumbnail
  address built from the id. Both patterns are written out by hand as string tests.
 */
module YouTube {
  import opened Wrappers
  import opened Text

  /** The optional scheme group `(https?://)?`. */
  datatype Scheme = NoScheme | Http | Https

  /** The optional host group `(www\.)?`. */
  datatype Host = NoHost | Www

  /** The three alternatives of the marker group, in the pattern's order. */
  datatype Marker = Watch | Short | Embed

  function SchemeText(s: Scheme): string {
    match s
    case NoScheme => ""
    case Http => "http://"
    case Https => "https://"
  }

  function HostText(h: Host): string {
    match h
    case NoHost => ""
    case Www => "www."
  }

  function MarkerText(mk: Marker): (t: string)
    ensures |t| >= 9 && t[0] == 'y'
  {
    match mk
    case Watch => "youtube.com/watch?v="
    case Short => "youtu.be/"
    case Embed => "youtube.com/embed/"
  }

  /** The class `[a-zA-Z0-9_-]` of video-id characters. */
  predicate IsIdChar(c: char) {
    IsAsciiUpper(c) || IsAsciiLower(c) || IsAsciiDigit(c) || c == '_' || c == '-'
  }

  /** Eleven id characters start at position `i`. */
  predicate IdAt(s: string, i: nat) {
    i + 11 <= |s| && forall k :: i <= k < i + 11 ==> IsIdChar(s[k])
  }

  // ---------------------------------------------------------------------------
  // The anchored validator

  /** The scheme group the pattern takes at the start: the longer alternative first. */
  function SchemeOf(url: string): (s: Scheme)
    ensures OccursAt(url, 0, SchemeText(s)) && |SchemeText(s)| <= |url|
  {
    if OccursAt(url, 0, "https://") then Https
    else if OccursAt(url, 0, "http://") then Http
    else NoScheme
  }

  /** The host group the pattern takes at position `i`. */
  function HostOf(url: string, i: nat): (h: Host)
    requires i <= |url|
    ensures OccursAt(url, i, HostText(h))
  {
    if OccursAt(url, i, "www.") then Www else NoHost
  }

  /** The marker alternative the pattern takes at position `i`, tried in the pattern's
      order; `None` when none occurs there. */
  function MarkerOf(url: string, i: nat): (r: Option<Marker>)
    ensures r.Some? ==> OccursAt(url, i, MarkerText(r.value)) && i + |MarkerText(r.value)| <= |url|
    ensures r.None? ==>
      !OccursAt(url, i, MarkerText(Watch)) && !OccursAt(url, i, MarkerText(Short)) && !OccursAt(url, i, MarkerText(Embed))
  {
    if OccursAt(url, i, MarkerText(Watch)) then Some(Watch)
    else if OccursAt(url, i, MarkerText(Short)) then Some(Short)
    else if OccursAt(url, i, MarkerText(Embed)) then Some(Embed)
    else None
  }

  /** Where the id starts when the prefix groups and a marker match; `None` otherwise. */
  function IdStart(url: string): (r: Option<nat>)
    ensures r.Some? ==> r.value <= |url|
  {
    var a := |SchemeText(SchemeOf(url))|;
    var b := a + |HostText(HostOf(url, a))|;
    match MarkerOf(url, b)
    case None => None
    case Some(mk) => Some(b + |MarkerText(mk)|)
  }

  /** `isValidYouTubeUrl` of the comment tab and the main content: the pattern's test. */
  predicate IsValidYouTubeUrl(url: string) {
    var start := IdStart(url);
    start.Some? && IdAt(url, start.value)
  }

  /** `isValidYouTubeUrl` of the sidebar: the empty string is turned down before the test,
      which changes nothing, as the test turns it down too. */
  function SidebarIsValid(url: string): (r: bool)
    ensures r == IsValidYouTubeUrl(url)
  {
    if url == "" then false else IsValidYouTubeUrl(url)
  }

  // ---------------------------------------------------------------------------
  // An independent reading: some scheme, some host, some marker, then eleven id characters

  function PrefixText(s: Scheme, h: Host, mk: Marker): string {
    SchemeText(s) + HostText(h) + MarkerText(mk)
  }

  predicate MatchesWith(url: string, s: Scheme, h: Host, mk: Marker) {
    OccursAt(url, 0, PrefixText(s, h, mk)) && IdAt(url, |PrefixText(s, h, mk)|)
  }

  ghost predicate PatternHolds(url: string) {
    exists s, h, mk :: MatchesWith(url, s, h, mk)
  }

  /** A character of an occurrence. */
  lemma CharAt(s: string, i: nat, p: string, k: nat)
    requires OccursAt(s, i, p) && k < |p|
    ensures s[i + k] == p[k]
  {
    assert s[i..i + |p|][k] == s[i + k];
  }

  /** `p` does not occur at `i` in `s` because it differs at offset `k`. */
  lemma NotAt(s: string, i: nat, p: string, k: nat)
    requires k < |p| && (i + k >= |s| || s[i + k] != p[k])
    ensures !OccursAt(s, i, p)
  {
    if i + |p| <= |s| {
      assert s[i..i + |p|][k] == s[i + k];
    }
  }

  /** An occurrence of a concatenation is an occurrence of each part, side by side. */
  lemma OccursConcat(s: string, i: nat, p: string, q: string)
    ensures OccursAt(s, i, p + q) <==> OccursAt(s, i, p) && OccursAt(s, i + |p|, q)
  {
    if i + |p + q| <= |s| {
      assert s[i..i + |p + q|] == s[i..i + |p|] + s[i + |p|..i + |p| + |q|];
    }
    if OccursAt(s, i, p + q) {
      assert s[i..i + |p|] == s[i..i + |p + q|][..|p|];
      assert s[i + |p|..i + |p| + |q|] == s[i..i + |p + q|][|p|..];
    }
  }

  /** The groups the validator finds are a scheme, a host and a marker of the reference. */
  lemma ValidToPattern(url: string)
    requires IsValidYouTubeUrl(url)
    ensures PatternHolds(url)
  {
    var s := SchemeOf(url);
    var h := HostOf(url, |SchemeText(s)|);
    var mk := MarkerOf(url, |SchemeText(s)| + |HostText(h)|).value;
    OccursConcat(url, 0, SchemeText(s), HostText(h));
    OccursConcat(url, 0, SchemeText(s) + HostText(h), MarkerText(mk));
    IdStartOf(url, s, h, mk);
    assert MatchesWith(url, s, h, mk);
  }

  /** The scheme group the validator takes when the scheme `s` is followed by the `w` of a
      host or the `y` of a marker. */
  lemma SchemeChosen(url: string, s: Scheme)
    requires OccursAt(url, 0, SchemeText(s))
    requires |SchemeText(s)| < |url| && (url[|SchemeText(s)|] == 'w' || url[|SchemeText(s)|] == 'y')
    ensures SchemeOf(url) == s
  {
    match s
    case NoScheme =>
      NotAt(url, 0, "https://", 0);
      NotAt(url, 0, "http://", 0);
    case Http =>
      CharAt(url, 0, "http://", 4);
      NotAt(url, 0, "https://", 4);
    case Https =>
  }

  /** The host group the validator takes when the host `h` is followed by the `y` of a
      marker. */
  lemma HostChosen(url: string, a: nat, h: Host)
    requires OccursAt(url, a, HostText(h))
    requires a + |HostText(h)| < |url| && url[a + |HostText(h)|] == 'y'
    ensures HostOf(url, a) == h
  {
    if h == NoHost {
      NotAt(url, a, "www.", 0);
    }
  }

  /** The three markers exclude one another, so the validator takes the one that occurs. */
  lemma MarkerChosen(url: string, b: nat, mk: Marker)
    requires OccursAt(url, b, MarkerText(mk))
    ensures MarkerOf(url, b) == Some(mk)
  {
    match mk
    case Watch =>
    case Short =>
      CharAt(url, b, MarkerText(Short), 5);
      NotAt(url, b, MarkerText(Watch), 5);
    case Embed =>
      CharAt(url, b, MarkerText(Embed), 5);
      NotAt(url, b, MarkerText(Short), 5);
      CharAt(url, b, MarkerText(Embed), 12);
      NotAt(url, b, MarkerText(Watch), 12);
  }

  /** The groups the reference chose are the ones the validator finds. */
  lemma GroupsFound(url: string, s: Scheme, h: Host, mk: Marker)
    requires OccursAt(url, 0, PrefixText(s, h, mk))
    ensures SchemeOf(url) == s
    ensures HostOf(url, |SchemeText(s)|) == h
    ensures MarkerOf(url, |SchemeText(s)| + |HostText(h)|) == Some(mk)
  {
    GroupsOccur(url, s, h, mk);
    SchemeChosen(url, s);
    HostChosen(url, |SchemeText(s)|, h);
    MarkerChosen(url, |SchemeText(s)| + |HostText(h)|, mk);
  }

  /** An occurrence of a prefix is an occurrence of its scheme, its host and its marker, one
      after the other; a `w` or the marker's `y` follows the scheme, and `y` the host. */
  lemma GroupsOccur(url: string, s: Scheme, h: Host, mk: Marker)
    requires OccursAt(url, 0, PrefixText(s, h, mk))
    ensures OccursAt(url, 0, SchemeText(s)) && OccursAt(url, |SchemeText(s)|, HostText(h))
    ensures OccursAt(url, |SchemeText(s)| + |HostText(h)|, MarkerText(mk))
    ensures |SchemeText(s)| < |url| && (url[|SchemeText(s)|] == 'w' || url[|SchemeText(s)|] == 'y')
    ensures |SchemeText(s)| + |HostText(h)| < |url| && url[|SchemeText(s)| + |HostText(h)|] == 'y'
  {
    var st, ht, mt := SchemeText(s), HostText(h), MarkerText(mk);
    OccursConcat(url, 0, st + ht, mt);
    OccursConcat(url, 0, st, ht);
    if h == NoHost {
      CharAt(url, |st|, mt, 0);
    } else {
      CharAt(url, |st|, ht, 0);
    }
    CharAt(url, |st| + |ht|, mt, 0);
  }

  lemma PatternToValid(url: string, s: Scheme, h: Host, mk: Marker)
    requires MatchesWith(url, s, h, mk)
    ensures IsValidYouTubeUrl(url)
  {
    GroupsFound(url, s, h, mk);
    IdStartOf(url, s, h, mk);
  }

  /** Where the validator finds the three groups, the id starts right after them. */
  lemma IdStartOf(url: string, s: Scheme, h: Host, mk: Marker)
    requires SchemeOf(url) == s && HostOf(url, |SchemeText(s)|) == h
    requires MarkerOf(url, |SchemeText(s)| + |HostText(h)|) == Some(mk)
    ensures IdStart(url) == Some(|PrefixText(s, h, mk)|)
  {
  }

  /** The validator accepts exactly the URLs the reference reading accepts. */
  lemma ValidIffPattern(url: string)
    ensures IsValidYouTubeUrl(url) <==> PatternHolds(url)
  {
    if IsValidYouTubeUrl(url) {
      ValidToPattern(url);
    }
    if PatternHolds(url) {
      var s, h, mk :| MatchesWith(url, s, h, mk);
      PatternToValid(url, s, h, mk);
    }
  }

  /** The pattern is anchored at the start only: whatever follows an accepted URL, it stays
      accepted. */
  lemma ValidExtends(url: string, suffix: string)
    requires IsValidYouTubeUrl(url)
    ensures IsValidYouTubeUrl(url + suffix)
  {
    ValidToPattern(url);
    var s, h, mk :| MatchesWith(url, s, h, mk);
    var n := |PrefixText(s, h, mk)|;
    var u := url + suffix;
    assert u[0..n] == url[0..n];
    forall k | n <= k < n + 11 ensures IsIdChar(u[k]) {
      assert u[k] == url[k];
    }
    PatternToValid(u, s, h, mk);
  }

  /** The shortest accepted URL is `youtu.be/` and eleven id characters. */
  lemma ValidLength(url: string)
    requires IsValidYouTubeUrl(url)
    ensures |url| >= 20
  {
  }

  // ---------------------------------------------------------------------------
  // The id search

  /** The class `[^&\n?#]`. */
  predicate IsRunChar(c: char) {
    c != '&' && c != '\n' && c != '?' && c != '#'
  }

  /** Length of the maximal run of run characters starting at `i`. */
  function RunLength(s: string, i: nat): (k: nat)
    requires i <= |s|
    ensures i + k <= |s|
    ensures forall j :: i <= j < i + k ==> IsRunChar(s[j])
    ensures i + k < |s| ==> !IsRunChar(s[i + k])
    decreases |s| - i
  {
    if i < |s| && IsRunChar(s[i]) then 1 + RunLength(s, i + 1) else 0
  }

  predicate RunStartsAt(s: string, i: nat) {
    i < |s| && IsRunChar(s[i])
  }

  /** The maximal run of run characters starting at `i`: what `([^&\n?#]+)` captures. */
  function RunAt(s: string, i: nat): (r: string)
    requires i <= |s|
    ensures i + |r| <= |s| && r == s[i..i + |r|]
    ensures forall k :: 0 <= k < |r| ==> IsRunChar(r[k])
    ensures i + |r| < |s| ==> !IsRunChar(s[i + |r|])
    ensures RunStartsAt(s, i) ==> r != []
  {
    var r := s[i..i + RunLength(s, i)];
    assert forall k :: 0 <= k < |r| ==> r[k] == s[i + k];
    r
  }

  /** The marker occurs at `p` and at least one run character follows it (the `+`). */
  predicate MatchAt(url: string, p: nat, mk: Marker) {
    OccursAt(url, p, MarkerText(mk)) && RunStartsAt(url, p + |MarkerText(mk)|)
  }

  /** The marker the search takes at position `p`: the first alternative that matches
      there. */
  function MarkerMatchAt(url: string, p: nat): (r: Option<Marker>)
    ensures r.Some? ==> MatchAt(url, p, r.value)
    ensures r.None? ==> !MatchAt(url, p, Watch) && !MatchAt(url, p, Short) && !MatchAt(url, p, Embed)
  {
    if MatchAt(url, p, Watch) then Some(Watch)
    else if MatchAt(url, p, Short) then Some(Short)
    else if MatchAt(url, p, Embed) then Some(Embed)
    else None
  }

  /** No match starts at any position from `p` up to, not including, `b`. */
  predicate NoMatchBetween(url: string, p: nat, b: nat)
    decreases b - p
  {
    p >= b || (MarkerMatchAt(url, p).None? && NoMatchBetween(url, p + 1, b))
  }

  lemma {:induction false} NoMatchBetweenAt(url: string, p: nat, b: nat, q: nat)
    requires NoMatchBetween(url, p, b) && p <= q < b
    ensures MarkerMatchAt(url, q).None?
    decreases q - p
  {
    if p < q {
      NoMatchBetweenAt(url, p + 1, b, q);
    }
  }

  lemma {:induction false} NoMatchBetweenIntro(url: string, p: nat, b: nat)
    requires forall q :: p <= q < b ==> MarkerMatchAt(url, q).None?
    ensures NoMatchBetween(url, p, b)
    decreases b - p
  {
    if p < b {
      NoMatchBetweenIntro(url, p + 1, b);
    }
  }

  /** The leftmost position at or after `p` where the pattern matches, with its marker. */
  function FindId(url: string, p: nat): (r: Option<(nat, Marker)>)
    requires p <= |url|
    ensures r.Some? ==> p <= r.value.0 <= |url| && MarkerMatchAt(url, r.value.0) == Some(r.value.1)
    ensures r.Some? ==> NoMatchBetween(url, p, r.value.0)
    ensures r.None? ==> NoMatchBetween(url, p, |url| + 1)
    decreases |url| - p
  {
    if MarkerMatchAt(url, p).Some? then Some((p, MarkerMatchAt(url, p).value))
    else if p == |url| then None
    else FindId(url, p + 1)
  }

  /** `extractVideoId`: the run that follows the leftmost match; `None` when nothing
      matches. */
  function ExtractVideoId(url: string): (r: Option<string>)
    ensures r.None? <==> FindId(url, 0).None?
    ensures r.Some? ==> r.value != []
  {
    match FindId(url, 0)
    case None => None
    case Some((p, mk)) => Some(RunAt(url, p + |MarkerText(mk)|))
  }

  /** There is no id exactly when no position of the URL starts a match. */
  lemma NoIdIffNoMatch(url: string)
    ensures ExtractVideoId(url).None? <==> NoMatchBetween(url, 0, |url| + 1)
  {
    if FindId(url, 0).Some? && NoMatchBetween(url, 0, |url| + 1) {
      NoMatchBetweenAt(url, 0, |url| + 1, FindId(url, 0).value.0);
    }
  }

  /** The id is the whole run after the leftmost match: non-empty, made of run characters,
      and ended by the end of the URL or by one of `&`, newline, `?`, `#`, as `RunAt`
      states. */
  lemma ExtractVideoIdSpec(url: string)
    requires ExtractVideoId(url).Some?
    ensures var (p, mk) := FindId(url, 0).value;
      && NoMatchBetween(url, 0, p)
      && MarkerMatchAt(url, p) == Some(mk)
      && ExtractVideoId(url).value == RunAt(url, p + |MarkerText(mk)|)
  {
    IdAfterMatch(url);
  }

  /** The id is the run after the first match. */
  lemma IdAfterMatch(url: string)
    requires FindId(url, 0).Some?
    ensures ExtractVideoId(url) == Some(RunAt(url, FindId(url, 0).value.0 + |MarkerText(FindId(url, 0).value.1)|))
  {
  }

  /** Without any of the three markers there is no id. */
  lemma NoMarkerNoId(url: string)
    requires forall q: nat, mk: Marker :: !OccursAt(url, q, MarkerText(mk))
    ensures ExtractVideoId(url) == None
  {
    forall q | 0 <= q < |url| + 1 ensures MarkerMatchAt(url, q).None? {
      assert !OccursAt(url, q, MarkerText(Watch));
      assert !OccursAt(url, q, MarkerText(Short));
      assert !OccursAt(url, q, MarkerText(Embed));
    }
    NoMatchBetweenIntro(url, 0, |url| + 1);
    NoIdIffNoMatch(url);
  }

  /** A match needs the `y` every marker starts with. */
  lemma NoMatchWithoutY(url: string, q: nat)
    requires q < |url| && url[q] != 'y'
    ensures MarkerMatchAt(url, q).None?
  {
    NotAt(url, q, MarkerText(Watch), 0);
    NotAt(url, q, MarkerText(Short), 0);
    NotAt(url, q, MarkerText(Embed), 0);
  }

  /** Two different markers never occur at the same position: "youtu.be/" parts from the
      other two at its sixth character, "watch?v=" from "embed/" at the thirteenth. */
  lemma MarkersExclusive(url: string, p: nat, a: Marker, b: Marker)
    requires OccursAt(url, p, MarkerText(a)) && OccursAt(url, p, MarkerText(b))
    ensures a == b
  {
    if a != b {
      var k := if a == Short || b == Short then 5 else 12;
      CharAt(url, p, MarkerText(a), k);
      CharAt(url, p, MarkerText(b), k);
    }
  }

  /** A marker followed directly by the end of the URL or by a character outside the run
      class does not end the search: nothing matches there, and the search goes on at the
      next position, towards a later marker. */
  lemma EmptyRunSkipped(url: string, p: nat, m: Marker)
    requires OccursAt(url, p, MarkerText(m))
    requires !RunStartsAt(url, p + |MarkerText(m)|)
    ensures MarkerMatchAt(url, p).None?
    ensures FindId(url, p) == FindId(url, p + 1)
  {
    if MarkerMatchAt(url, p).Some? {
      MarkersExclusive(url, p, m, MarkerMatchAt(url, p).value);
    }
  }

  /** The search passes over positions where nothing matches. */
  lemma {:induction false} FindSkip(url: string, p: nat, b: nat)
    requires p <= b <= |url|
    requires NoMatchBetween(url, p, b)
    requires MarkerMatchAt(url, b).Some?
    ensures FindId(url, p) == Some((b, MarkerMatchAt(url, b).value))
    decreases b - p
  {
    if p < b {
      FindSkip(url, p + 1, b);
    }
  }

  /** A run of at least `n` run characters at `i` is at least `n` long. */
  lemma {:induction false} RunCovers(s: string, i: nat, n: nat)
    requires i + n <= |s| && forall j :: i <= j < i + n ==> IsRunChar(s[j])
    ensures RunLength(s, i) >= n
    decreases n
  {
    if n > 0 {
      RunCovers(s, i + 1, n - 1);
    }
  }

  /** No scheme and no host contains a `y`. */
  lemma NoYInGroups(s: Scheme, h: Host, k: nat)
    requires k < |SchemeText(s) + HostText(h)|
    ensures (SchemeText(s) + HostText(h))[k] != 'y'
  {
    match s
    case NoScheme =>
    case Http =>
    case Https =>
  }

  /** Where the validator found a marker followed by a run character, the search takes the
      same marker. */
  lemma MatchAgrees(url: string, b: nat)
    requires MarkerOf(url, b).Some?
    requires RunStartsAt(url, b + |MarkerText(MarkerOf(url, b).value)|)
    ensures MarkerMatchAt(url, b) == MarkerOf(url, b)
  {
  }

  /** On an accepted URL the search finds its first match where the validator found the
      marker: no match starts inside the scheme and host groups, none of whose characters is
      `y`. */
  lemma ValidFindsMarker(url: string)
    requires IsValidYouTubeUrl(url)
    ensures FindId(url, 0).Some?
    ensures FindId(url, 0).value.0 + |MarkerText(FindId(url, 0).value.1)| == IdStart(url).value
  {
    var s := SchemeOf(url);
    var h := HostOf(url, |SchemeText(s)|);
    var b := |SchemeText(s)| + |HostText(h)|;
    NoMatchInGroups(url, s, h);
    assert MarkerOf(url, b).Some? && IdAt(url, IdStart(url).value);
    MatchAgrees(url, b);
    FindSkip(url, 0, b);
  }

  /** No match starts inside the scheme and host groups at the start of the URL. */
  lemma NoMatchInGroups(url: string, s: Scheme, h: Host)
    requires OccursAt(url, 0, SchemeText(s)) && OccursAt(url, |SchemeText(s)|, HostText(h))
    ensures NoMatchBetween(url, 0, |SchemeText(s)| + |HostText(h)|)
  {
    var pre := SchemeText(s) + HostText(h);
    var b := |pre|;
    OccursConcat(url, 0, SchemeText(s), HostText(h));
    forall q | 0 <= q < b ensures MarkerMatchAt(url, q).None? {
      CharAt(url, 0, pre, q);
      NoYInGroups(s, h, q);
      NoMatchWithoutY(url, q);
    }
    NoMatchBetweenIntro(url, 0, b);
  }

  /** Every URL the validator accepts has an id, and the id begins with the eleven
      characters the validator checked. */
  lemma ValidHasId(url: string)
    requires IsValidYouTubeUrl(url)
    ensures ExtractVideoId(url).Some?
    ensures var id := ExtractVideoId(url).value;
      |id| >= 11 && id[..11] == url[IdStart(url).value..IdStart(url).value + 11]
  {
    var start := IdStart(url).value;
    assert IdAt(url, start);
    ValidFindsMarker(url);
    IdOfMatch(url, start);
    assert ExtractVideoId(url).value == RunAt(url, start);
  }

  /** When the first match ends where eleven id characters start, the id is the run from
      there and begins with them. */
  lemma IdOfMatch(url: string, start: nat)
    requires FindId(url, 0).Some?
    requires FindId(url, 0).value.0 + |MarkerText(FindId(url, 0).value.1)| == start
    requires IdAt(url, start)
    ensures ExtractVideoId(url) == Some(RunAt(url, start))
    ensures |RunAt(url, start)| >= 11 && RunAt(url, start)[..11] == url[start..start + 11]
  {
    IdAfterMatch(url);
    IdCharsRun(url, start);
    RunPrefix(url, start, 11);
  }

  /** Id characters are run characters. */
  lemma IdCharsRun(s: string, i: nat)
    requires IdAt(s, i)
    ensures forall j :: i <= j < i + 11 ==> IsRunChar(s[j])
  {
  }

  /** A run covering `n` run characters begins with them. */
  lemma RunPrefix(s: string, i: nat, n: nat)
    requires i + n <= |s| && forall j :: i <= j < i + n ==> IsRunChar(s[j])
    ensures |RunAt(s, i)| >= n && RunAt(s, i)[..n] == s[i..i + n]
  {
    RunCovers(s, i, n);
  }

  // ---------------------------------------------------------------------------
  // The thumbnail

  const ThumbnailPrefix: string := "https://img.youtube.com/vi/"
  const ThumbnailSuffix: string := "/mqdefault.jpg"

  /** `getThumbnailUrl`: the medium-quality thumbnail of the id, when there is one; the id
      can be read back from between the fixed prefix and suffix. */
  function GetThumbnailUrl(url: string): (r: Option<string>)
    ensures r.None? <==> ExtractVideoId(url).None?
    ensures r.Some? ==>
      var id := ExtractVideoId(url).value;
      && |r.value| == |ThumbnailPrefix| + |id| + |ThumbnailSuffix|
      && StartsWith(r.value, ThumbnailPrefix) && EndsWith(r.value, ThumbnailSuffix)
      && r.value[|ThumbnailPrefix|..|ThumbnailPrefix| + |id|] == id
  {
    match ExtractVideoId(url)
    case None => None
    case Some(id) =>
      var r := ThumbnailPrefix + id + ThumbnailSuffix;
      assert r[..|ThumbnailPrefix|] == ThumbnailPrefix;
      assert r[|r| - |ThumbnailSuffix|..] == ThumbnailSuffix;
      assert r[|ThumbnailPrefix|..|ThumbnailPrefix| + |id|] == id;
      Some(r)
  }

  /** Every accepted URL has a thumbnail. */
  lemma ValidHasThumbnail(url: string)
    requires IsValidYouTubeUrl(url)
    ensures GetThumbnailUrl(url).Some?
  {
    ValidHasId(url);
  }
}
