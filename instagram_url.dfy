/** `INSTAGRAM_REGEX` (bot.py:202) and the `re.search` that applies it (bot.py:324).
    The pattern, exactly as written, is
      https?://(?:www\.) ?instagram\.com/(?:p|reel|tv)/([A-Za-z0-9_\-]+)/?
    so `www.` is required and only a single space after it is optional.

    The matcher is stated for any pattern of that shape (a scheme, an optional mark, a
    separator, an optional space, a host, one of several path kinds, the shortcode
    group and an optional slash); `Instagram` is the one the bot uses. */
module InstagramUrl {
  import opened Common

  /** `[A-Za-z0-9_\-]` */
  predicate IsShortcodeChar(c: char) {
    ('A' <= c <= 'Z') || ('a' <= c <= 'z') || ('0' <= c <= '9') || c == '_' || c == '-'
  }

  predicate IsShortcode(code: string) {
    |code| > 0 && forall k :: 0 <= k < |code| ==> IsShortcodeChar(code[k])
  }

  /** The literal pieces of the pattern. Each path kind carries its slash. */
  datatype Pattern = Pattern(scheme: string, mark: char, sep: string, space: char, host: string, kinds: seq<string>)

  /** `http`, `s?`, `://www.`, ` ?`, `instagram.com/`, then `p/`, `reel/` or `tv/`. */
  const Instagram: Pattern := Pattern("http", 's', "://www.", ' ', "instagram.com/", ["p/", "reel/", "tv/"])

  /** The optional mark and space never have to be given back once taken, because the
      piece after each cannot start with it; and the path kinds start with different
      characters, so the first one decides which to try. */
  predicate WellFormed(pat: Pattern) {
    && |pat.sep| > 0 && pat.sep[0] != pat.mark
    && |pat.host| > 0 && pat.host[0] != pat.space
    && (forall j :: 0 <= j < |pat.kinds| ==> |pat.kinds[j]| > 0)
    && (forall j, l :: 0 <= j < l < |pat.kinds| ==> pat.kinds[j][0] != pat.kinds[l][0])
  }

  lemma InstagramWellFormed()
    ensures WellFormed(Instagram)
  {
    var ks := Instagram.kinds;
    assert ks[0][0] == 'p' && ks[1][0] == 'r' && ks[2][0] == 't';
  }

  /** The choices one match makes: the mark or not, the space or not, which path kind,
      the captured shortcode (group 1) and the trailing slash or not. */
  datatype Parsed = Parsed(secure: bool, spaced: bool, kind: nat, code: string, slash: bool)

  function Prefix(pat: Pattern, secure: bool, spaced: bool): string {
    pat.scheme + (if secure then [pat.mark] else []) + pat.sep + (if spaced then [pat.space] else []) + pat.host
  }

  /** The text a match spans (group 0). */
  function Url(pat: Pattern, p: Parsed): string
    requires p.kind < |pat.kinds|
  {
    Prefix(pat, p.secure, p.spaced) + pat.kinds[p.kind] + p.code + (if p.slash then "/" else "")
  }

  predicate HasAt(t: string, i: nat, lit: string) {
    i + |lit| <= |t| && forall m :: 0 <= m < |lit| ==> t[i + m] == lit[m]
  }

  /** The end of the longest run of shortcode characters starting at `i`. */
  function RunEnd(t: string, i: nat): (e: nat)
    requires i <= |t|
    ensures i <= e <= |t|
    ensures forall k :: i <= k < e ==> IsShortcodeChar(t[k])
    ensures e == |t| || !IsShortcodeChar(t[e])
    decreases |t| - i
  {
    if i < |t| && IsShortcodeChar(t[i]) then RunEnd(t, i + 1) else i
  }

  /** What a successful attempt at position `i` consumed: the text of the match, with the
      shortcode run taken as far as it goes and the optional slash taken when present
      (the greedy `+` and `?`; nothing after them can force backtracking). */
  predicate MatchedAt(pat: Pattern, t: string, i: nat, p: Parsed) {
    && p.kind < |pat.kinds|
    && IsShortcode(p.code)
    && HasAt(t, i, Url(pat, p))
    && var e := i + |Url(pat, p)|;
       !p.slash ==> e == |t| || (!IsShortcodeChar(t[e]) && t[e] != '/')
  }

  // ---------------------------------------------------------------------------
  // The engine, stage by stage

  /** The prefix at `i`, if any, with the optional mark and space taken greedily. */
  function PrefixAt(pat: Pattern, t: string, i: nat): (r: Option<(bool, bool)>)
    ensures r.Some? ==> HasAt(t, i, Prefix(pat, r.value.0, r.value.1))
  {
    var m := i + |pat.scheme|;
    var secure := m < |t| && t[m] == pat.mark;
    var n := m + (if secure then 1 else 0) + |pat.sep|;
    var spaced := n < |t| && t[n] == pat.space;
    if HasAt(t, i, Prefix(pat, secure, spaced)) then Some((secure, spaced)) else None
  }

  /** The first path kind that starts with `c`. */
  function KindStarting(kinds: seq<string>, c: char, j: nat): (r: Option<nat>)
    requires j <= |kinds|
    ensures r.Some? ==> j <= r.value < |kinds| && |kinds[r.value]| > 0 && kinds[r.value][0] == c
    ensures r.None? ==> forall l :: j <= l < |kinds| && |kinds[l]| > 0 ==> kinds[l][0] != c
    decreases |kinds| - j
  {
    if j == |kinds| then None
    else if |kinds[j]| > 0 && kinds[j][0] == c then Some(j)
    else KindStarting(kinds, c, j + 1)
  }

  /** The path kind at `i`, if any: the one whose first character is there. */
  function KindAt(pat: Pattern, t: string, i: nat): (r: Option<nat>)
    ensures r.Some? ==> r.value < |pat.kinds| && HasAt(t, i, pat.kinds[r.value])
  {
    if i >= |t| then None
    else
      match KindStarting(pat.kinds, t[i], 0)
      case None => None
      case Some(kind) => if HasAt(t, i, pat.kinds[kind]) then Some(kind) else None
  }

  /** Each piece of `p` stands where the pattern looks for it, starting at `i`: the
      prefix, the path kind, the shortcode as the whole run there, and the slash
      exactly when the run is followed by one. */
  predicate InPlace(pat: Pattern, t: string, i: nat, p: Parsed) {
    && HasAt(t, i, Prefix(pat, p.secure, p.spaced))
    && PathInPlace(pat, t, i + |Prefix(pat, p.secure, p.spaced)|, p)
  }

  /** The part of `InPlace` after the prefix, which ends at `k`. */
  predicate PathInPlace(pat: Pattern, t: string, k: nat, p: Parsed) {
    && p.kind < |pat.kinds|
    && HasAt(t, k, pat.kinds[p.kind])
    && CodeInPlace(t, k + |pat.kinds[p.kind]|, p)
  }

  /** The part of `InPlace` from the shortcode, which starts at `c`, on. */
  predicate CodeInPlace(t: string, c: nat, p: Parsed) {
    var e := c + |p.code|;
    && c < e <= |t| && t[c..e] == p.code && RunEnd(t, c) == e
    && p.slash == (e < |t| && t[e] == '/')
  }

  /** The pattern tried at position `i` (`re.match` semantics from there). */
  function MatchAt(pat: Pattern, t: string, i: nat): (r: Option<Parsed>)
    requires i <= |t|
    ensures r.Some? ==> InPlace(pat, t, i, r.value)
  {
    var found := PrefixAt(pat, t, i);
    if found.None? then None
    else
      var (secure, spaced) := found.value;
      var r := MatchPath(pat, t, i + |Prefix(pat, secure, spaced)|, secure, spaced);
      assert r.Some? ==> InPlace(pat, t, i, r.value);
      r
  }

  /** The rest of the pattern once the prefix has matched and ended at `k`. */
  function MatchPath(pat: Pattern, t: string, k: nat, secure: bool, spaced: bool): (r: Option<Parsed>)
    ensures r.Some? ==> r.value.secure == secure && r.value.spaced == spaced && PathInPlace(pat, t, k, r.value)
  {
    match KindAt(pat, t, k)
    case None => None
    case Some(kind) => MatchCode(t, k + |pat.kinds[kind]|, secure, spaced, kind)
  }

  /** The shortcode group and the optional slash, from `c` on. */
  function MatchCode(t: string, c: nat, secure: bool, spaced: bool, kind: nat): (r: Option<Parsed>)
    ensures r.Some? ==>
      r.value.secure == secure && r.value.spaced == spaced && r.value.kind == kind && CodeInPlace(t, c, r.value)
  {
    if c > |t| then None
    else
      var e := RunEnd(t, c);
      if e == c then None
      else Some(Parsed(secure, spaced, kind, t[c..e], e < |t| && t[e] == '/'))
  }

  lemma HasAtJoin(t: string, i: nat, a: string, b: string)
    requires HasAt(t, i, a) && HasAt(t, i + |a|, b)
    ensures HasAt(t, i, a + b)
  {
    forall m | 0 <= m < |a + b|
      ensures t[i + m] == (a + b)[m]
    {
      if m >= |a| {
        assert t[i + |a| + (m - |a|)] == b[m - |a|];
      }
    }
  }

  /** A shortcode in place is a shortcode, and it is the text at its position. */
  lemma CodeAt(t: string, c: nat, p: Parsed)
    requires CodeInPlace(t, c, p)
    ensures HasAt(t, c, p.code) && IsShortcode(p.code)
    ensures var e := c + |p.code|; !p.slash ==> e == |t| || (!IsShortcodeChar(t[e]) && t[e] != '/')
  {
    var e := c + |p.code|;
    forall m | 0 <= m < |p.code|
      ensures t[c + m] == p.code[m] && IsShortcodeChar(p.code[m])
    {
      assert t[c..e][m] == t[c + m];
    }
  }

  /** Pieces in place make up the URL, and the match cannot be extended. */
  lemma InPlaceMatched(pat: Pattern, t: string, i: nat, p: Parsed)
    requires InPlace(pat, t, i, p)
    ensures MatchedAt(pat, t, i, p)
  {
    var a := Prefix(pat, p.secure, p.spaced);
    var b := pat.kinds[p.kind];
    var c := i + |a| + |b|;
    var sl := if p.slash then "/" else "";
    HasAtJoin(t, i, a, b);
    CodeAt(t, c, p);
    HasAtJoin(t, i, a + b, p.code);
    HasAtJoin(t, i, a + b + p.code, sl);
    var url := Url(pat, p);
    assert url == a + b + p.code + sl;
    assert i + |url| == c + |p.code| + |sl|;
  }

  /** Whatever `MatchAt` accepts is a match of the pattern at that position. */
  lemma MatchAtSound(pat: Pattern, t: string, i: nat)
    requires i <= |t|
    ensures MatchAt(pat, t, i).Some? ==> MatchedAt(pat, t, i, MatchAt(pat, t, i).value)
  {
    if MatchAt(pat, t, i).Some? {
      InPlaceMatched(pat, t, i, MatchAt(pat, t, i).value);
    }
  }

  // ---------------------------------------------------------------------------
  // re.search

  /** Where `re.search` finds its match: the leftmost position at which the pattern
      matches. */
  datatype Found = Found(start: nat, parsed: Parsed)

  /** The outcome of trying the pattern at each position of `t`, left to right
      (including the empty remainder at the end). */
  function Attempts(pat: Pattern, t: string): (a: seq<Option<Parsed>>)
    ensures |a| == |t| + 1
    ensures forall j :: 0 <= j <= |t| ==> a[j] == MatchAt(pat, t, j)
  {
    seq(|t| + 1, j requires 0 <= j <= |t| => MatchAt(pat, t, j))
  }

  /** The first successful attempt at or after position `i`. */
  function FirstHit(a: seq<Option<Parsed>>, i: nat): (r: Option<Found>)
    requires i <= |a|
    ensures r.Some? ==>
      && i <= r.value.start < |a|
      && a[r.value.start] == Some(r.value.parsed)
      && forall j :: i <= j < r.value.start ==> a[j].None?
    ensures r.None? ==> forall j :: i <= j < |a| ==> a[j].None?
    decreases |a| - i
  {
    if i == |a| then None
    else match a[i]
      case Some(p) => Some(Found(i, p))
      case None => FirstHit(a, i + 1)
  }

  /** `re.search(pattern, text)`: the leftmost match, which is a genuine match of the
      pattern; `None` when no position matches. */
  function Search(pat: Pattern, t: string): (r: Option<Found>)
    ensures r.Some? ==>
      && r.value.start <= |t|
      && MatchAt(pat, t, r.value.start) == Some(r.value.parsed)
      && MatchedAt(pat, t, r.value.start, r.value.parsed)
      && forall j :: 0 <= j < r.value.start ==> MatchAt(pat, t, j).None?
    ensures r.None? ==> forall j :: 0 <= j <= |t| ==> MatchAt(pat, t, j).None?
    ensures WellFormed(pat) ==> (r.None? <==> forall j: nat, p :: !MatchedAt(pat, t, j, p))
    ensures WellFormed(pat) && r.Some? ==> forall j: nat, p :: j < r.value.start ==> !MatchedAt(pat, t, j, p)
  {
    var r := FirstHit(Attempts(pat, t), 0);
    MatchesFound(pat, t);
    if r.Some? then MatchAtSound(pat, t, r.value.start); r else r
  }

  /** `url_match.group(0)`: the matched substring. */
  function MatchedText(pat: Pattern, t: string, f: Found): (s: string)
    requires MatchedAt(pat, t, f.start, f.parsed)
    ensures s == Url(pat, f.parsed)
  {
    var s := t[f.start..f.start + |Url(pat, f.parsed)|];
    assert forall m :: 0 <= m < |s| ==> s[m] == t[f.start + m];
    s
  }

  // ---------------------------------------------------------------------------
  // Completeness

  /** Every URL of the pattern's shape is matched in full, with its own shortcode, when
      what follows it could not extend the shortcode or supply the optional slash. */
  lemma MatchUrl(pat: Pattern, p: Parsed, rest: string)
    requires WellFormed(pat)
    requires p.kind < |pat.kinds| && IsShortcode(p.code)
    requires !p.slash ==> rest == [] || (!IsShortcodeChar(rest[0]) && rest[0] != '/')
    ensures MatchAt(pat, Url(pat, p) + rest, 0) == Some(p)
  {
    UrlInPlace(pat, p, rest);
    InPlaceFound(pat, Url(pat, p) + rest, 0, p);
  }

  lemma UrlInPlace(pat: Pattern, p: Parsed, rest: string)
    requires p.kind < |pat.kinds| && IsShortcode(p.code)
    requires !p.slash ==> rest == [] || (!IsShortcodeChar(rest[0]) && rest[0] != '/')
    ensures InPlace(pat, Url(pat, p) + rest, 0, p)
  {
    var t := Url(pat, p) + rest;
    var a := Prefix(pat, p.secure, p.spaced);
    var b := pat.kinds[p.kind];
    Pieces(t, a, b, p.code, if p.slash then "/" else "", rest);
    RunThenStop(t, |a| + |b|, p.code, p.slash, rest);
  }

  /** Where each piece of a five-piece concatenation stands. */
  lemma Pieces(t: string, a: string, b: string, code: string, sl: string, rest: string)
    requires t == a + b + code + sl + rest
    ensures HasAt(t, 0, a) && HasAt(t, |a|, b)
    ensures t[|a| + |b|..|a| + |b| + |code|] == code
    ensures t[|a| + |b| + |code|..] == sl + rest
  {
    assert t[0..|a|] == a;
    assert t[|a|..|a| + |b|] == b;
    forall m | 0 <= m < |b|
      ensures t[|a| + m] == b[m]
    {
      assert t[|a|..|a| + |b|][m] == t[|a| + m];
    }
    assert t[|a| + |b|..|a| + |b| + |code|] == code;
    assert t[|a| + |b| + |code|..] == sl + rest;
  }

  /** A shortcode followed by the optional slash and then something that cannot
      continue it is taken whole, and the slash is seen exactly when present. */
  lemma RunThenStop(t: string, c: nat, code: string, slash: bool, rest: string)
    requires IsShortcode(code)
    requires c + |code| <= |t| && t[c..c + |code|] == code
    requires t[c + |code|..] == (if slash then "/" else "") + rest
    requires !slash ==> rest == [] || (!IsShortcodeChar(rest[0]) && rest[0] != '/')
    ensures RunEnd(t, c) == c + |code|
    ensures (c + |code| < |t| && t[c + |code|] == '/') == slash
  {
    var e := c + |code|;
    forall m | c <= m < e
      ensures IsShortcodeChar(t[m])
    {
      assert t[m] == t[c..e][m - c];
    }
    if slash || rest != [] {
      assert t[e] == t[e..][0];
    }
  }

  /** With every piece in place at `i`, `MatchAt` finds exactly `p` there. */
  lemma InPlaceFound(pat: Pattern, t: string, i: nat, p: Parsed)
    requires WellFormed(pat) && InPlace(pat, t, i, p)
    ensures i <= |t| && MatchAt(pat, t, i) == Some(p)
  {
    PrefixAtFinds(pat, t, i, p.secure, p.spaced);
    PathFound(pat, t, i + |Prefix(pat, p.secure, p.spaced)|, p);
  }

  lemma PrefixAtFinds(pat: Pattern, t: string, i: nat, secure: bool, spaced: bool)
    requires WellFormed(pat) && HasAt(t, i, Prefix(pat, secure, spaced))
    ensures PrefixAt(pat, t, i) == Some((secure, spaced))
  {
    var a := Prefix(pat, secure, spaced);
    var m := |pat.scheme|;
    var n := m + (if secure then 1 else 0) + |pat.sep|;
    assert t[i + m] == a[m];
    assert a[m] == if secure then pat.mark else pat.sep[0];
    assert t[i + n] == a[n];
    assert a[n] == if spaced then pat.space else pat.host[0];
  }

  lemma PathFound(pat: Pattern, t: string, k: nat, p: Parsed)
    requires WellFormed(pat) && PathInPlace(pat, t, k, p)
    ensures MatchPath(pat, t, k, p.secure, p.spaced) == Some(p)
  {
    KindAtFinds(pat, t, k, p.kind);
    CodeFound(t, k + |pat.kinds[p.kind]|, p);
  }

  lemma KindAtFinds(pat: Pattern, t: string, k: nat, kind: nat)
    requires WellFormed(pat) && kind < |pat.kinds| && HasAt(t, k, pat.kinds[kind])
    ensures KindAt(pat, t, k) == Some(kind)
  {
    assert t[k + 0] == pat.kinds[kind][0];
  }

  lemma CodeFound(t: string, c: nat, p: Parsed)
    requires CodeInPlace(t, c, p)
    ensures MatchCode(t, c, p.secure, p.spaced, p.kind) == Some(p)
  {
  }

  lemma HasAtSplit(t: string, i: nat, a: string, b: string)
    requires HasAt(t, i, a + b)
    ensures HasAt(t, i, a) && HasAt(t, i + |a|, b)
  {
    forall m | 0 <= m < |a|
      ensures t[i + m] == a[m]
    {
      assert t[i + m] == (a + b)[m];
    }
    forall m | 0 <= m < |b|
      ensures t[i + |a| + m] == b[m]
    {
      assert t[i + (|a| + m)] == (a + b)[|a| + m];
    }
  }

  /** A run of shortcode characters from `c` that stops at `e` is the longest one. */
  lemma {:induction false} RunEndAt(t: string, c: nat, e: nat)
    requires c <= e <= |t|
    requires forall k :: c <= k < e ==> IsShortcodeChar(t[k])
    requires e == |t| || !IsShortcodeChar(t[e])
    ensures RunEnd(t, c) == e
    decreases e - c
  {
    if c < e {
      RunEndAt(t, c + 1, e);
    }
  }

  /** A match of the pattern at `i` has every piece where the engine looks for it. */
  lemma MatchedInPlace(pat: Pattern, t: string, i: nat, p: Parsed)
    requires MatchedAt(pat, t, i, p)
    ensures InPlace(pat, t, i, p)
  {
    var a := Prefix(pat, p.secure, p.spaced);
    var b := pat.kinds[p.kind];
    var sl := if p.slash then "/" else "";
    var c := i + |a| + |b|;
    assert Url(pat, p) == a + b + p.code + sl;
    FourPieces(t, i, a, b, p.code, sl);
    CodeMatched(t, c, p);
  }

  /** Where each piece of a four-piece literal found at `i` stands. */
  lemma FourPieces(t: string, i: nat, a: string, b: string, code: string, sl: string)
    requires HasAt(t, i, a + b + code + sl)
    ensures HasAt(t, i, a) && HasAt(t, i + |a|, b)
    ensures HasAt(t, i + |a| + |b|, code) && HasAt(t, i + |a| + |b| + |code|, sl)
  {
    HasAtSplit(t, i, a + b + code, sl);
    HasAtSplit(t, i, a + b, code);
    HasAtSplit(t, i, a, b);
  }

  /** A shortcode standing at `c` and not followed by another shortcode character is
      the whole run there; the slash after it is the optional one. */
  lemma CodeMatched(t: string, c: nat, p: Parsed)
    requires IsShortcode(p.code) && HasAt(t, c, p.code)
    requires p.slash ==> HasAt(t, c + |p.code|, "/")
    requires var e := c + |p.code|; !p.slash ==> e == |t| || (!IsShortcodeChar(t[e]) && t[e] != '/')
    ensures CodeInPlace(t, c, p)
  {
    var e := c + |p.code|;
    forall k | c <= k < e
      ensures IsShortcodeChar(t[k])
    {
      assert t[c + (k - c)] == p.code[k - c];
    }
    if p.slash {
      assert t[e + 0] == "/"[0];
    }
    RunEndAt(t, c, e);
    assert t[c..e] == p.code by {
      forall m | 0 <= m < |p.code|
        ensures t[c..e][m] == p.code[m]
      {
        assert t[c + m] == p.code[m];
      }
    }
  }

  /** Under a well-formed pattern the engine finds every match: wherever the pattern
      matches, `MatchAt` succeeds there with that very parse. */
  lemma MatchesFound(pat: Pattern, t: string)
    ensures WellFormed(pat) ==>
      forall j: nat, p :: MatchedAt(pat, t, j, p) ==> j <= |t| && MatchAt(pat, t, j) == Some(p)
  {
    if WellFormed(pat) {
      forall j: nat, p | MatchedAt(pat, t, j, p)
        ensures j <= |t| && MatchAt(pat, t, j) == Some(p)
      {
        MatchedInPlace(pat, t, j, p);
        InPlaceFound(pat, t, j, p);
      }
    }
  }

  // ---------------------------------------------------------------------------
  // The bot's pattern

  /** The scheme, the mark if taken, and the separator. */
  function Lead(pat: Pattern, secure: bool): string {
    pat.scheme + (if secure then [pat.mark] else []) + pat.sep
  }

  /** Every match opens with a lead. */
  lemma LeadOfMatch(pat: Pattern, t: string, j: nat, p: Parsed)
    requires MatchedAt(pat, t, j, p)
    ensures HasAt(t, j, Lead(pat, p.secure))
  {
    var lead := Lead(pat, p.secure);
    var a := Prefix(pat, p.secure, p.spaced);
    var path := pat.kinds[p.kind] + p.code + (if p.slash then "/" else "");
    assert a == lead + ((if p.spaced then [pat.space] else []) + pat.host);
    assert Url(pat, p) == a + path;
    HasAtSplit(t, j, a, path);
    HasAtSplit(t, j, lead, (if p.spaced then [pat.space] else []) + pat.host);
  }

  /** A text in which no lead occurs holds no match. */
  lemma NoLeadNoMatch(pat: Pattern, t: string)
    requires WellFormed(pat)
    requires forall j: nat :: !HasAt(t, j, Lead(pat, false)) && !HasAt(t, j, Lead(pat, true))
    ensures Search(pat, t).None?
  {
    forall j: nat, p | MatchedAt(pat, t, j, p)
      ensures false
    {
      LeadOfMatch(pat, t, j, p);
    }
  }

  /** A text in which neither `http://www.` nor `https://www.` occurs holds no link the
      bot recognises: a link without `www.` is not found, as written. */
  lemma NoMatchWithoutWww(t: string)
    requires forall j: nat :: !HasAt(t, j, "http://www.") && !HasAt(t, j, "https://www.")
    ensures Search(Instagram, t).None?
  {
    InstagramWellFormed();
    assert Lead(Instagram, true) == "https://www.";
    assert Lead(Instagram, false) == "http://www.";
    NoLeadNoMatch(Instagram, t);
  }

  /** The link `handle_message` takes from a message: the text of the leftmost match of
      the bot's pattern, when there is one. */
  function LinkIn(t: string): (r: Option<string>)
    ensures r.Some? <==> Search(Instagram, t).Some?
    ensures r.Some? <==> exists j: nat, p :: MatchedAt(Instagram, t, j, p)
    ensures r.Some? ==> r.value == Url(Instagram, Search(Instagram, t).value.parsed)
  {
    InstagramWellFormed();
    match Search(Instagram, t)
    case None => None
    case Some(f) => Some(MatchedText(Instagram, t, f))
  }

  /** A message that opens with a post, reel or video link of the bot's shape yields
      exactly that link, whatever text follows it (as long as that text cannot extend
      the shortcode). */
  lemma LinkAtStart(p: Parsed, rest: string)
    requires p.kind < |Instagram.kinds| && IsShortcode(p.code)
    requires !p.slash ==> rest == [] || (!IsShortcodeChar(rest[0]) && rest[0] != '/')
    ensures LinkIn(Url(Instagram, p) + rest) == Some(Url(Instagram, p))
  {
    var t := Url(Instagram, p) + rest;
    InstagramWellFormed();
    MatchUrl(Instagram, p, rest);
    assert Attempts(Instagram, t)[0] == Some(p);
  }
}
