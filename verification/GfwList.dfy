/** gfwlist: lines of a wildcard rule list become regular expressions in two
    string rewrites, and a host is blocked when one of them is found in it. */
module GfwLists {
  import opened Bytes

  // ------------------------------------------------------------ string::find

  predicate OccursAt(s: string, pat: string, i: nat) {
    i + |pat| <= |s| && s[i..i + |pat|] == pat
  }

  /** string::find from `pos` on. */
  function Find(s: string, pat: string, pos: nat): (r: Option<nat>)
    ensures r.Some? ==> pos <= r.value && OccursAt(s, pat, r.value)
    decreases |s| - pos
  {
    if pos + |pat| > |s| then None
    else if s[pos..pos + |pat|] == pat then Some(pos)
    else Find(s, pat, pos + 1)
  }

  /** Nothing before what it finds. */
  lemma {:induction false} FindFirst(s: string, pat: string, pos: nat)
    ensures forall i: nat | pos <= i && (Find(s, pat, pos).Some? ==> i < Find(s, pat, pos).value) :: !OccursAt(s, pat, i)
    decreases |s| - pos
  {
    if pos + |pat| <= |s| && s[pos..pos + |pat|] != pat {
      FindFirst(s, pat, pos + 1);
    }
  }

  // --------------------------------------------------------- replace_string

  /** Leftmost non-overlapping replacement. */
  function Replaced(s: string, src: string, dst: string): string
    requires src != ""
  {
    if s == "" then ""
    else if OccursAt(s, src, 0) then dst + Replaced(s[|src|..], src, dst)
    else [s[0]] + Replaced(s[1..], src, dst)
  }

  lemma {:induction false} ReplacedAt(s: string, src: string, dst: string, p: nat)
    requires src != "" && OccursAt(s, src, p) && forall i: nat | i < p :: !OccursAt(s, src, i)
    ensures Replaced(s, src, dst) == s[..p] + dst + Replaced(s[p + |src|..], src, dst)
  {
    if p == 0 {
      assert s[..0] + dst == dst;
    } else {
      Shifted(s, src);
      ReplacedAt(s[1..], src, dst, p - 1);
      assert s[1..][p - 1 + |src|..] == s[p + |src|..];
      FirstStays(s, src, dst, p, Replaced(s[p + |src|..], src, dst));
    }
  }

  lemma FirstStays(s: string, src: string, dst: string, p: nat, rest: string)
    requires src != "" && 0 < p && p + |src| <= |s| && !OccursAt(s, src, 0)
    requires Replaced(s[1..], src, dst) == s[1..][..p - 1] + dst + rest
    ensures Replaced(s, src, dst) == s[..p] + dst + rest
  {
    FourParts([s[0]], s[1..][..p - 1], dst, rest);
    assert s[..p] == [s[0]] + s[1..][..p - 1];
  }

  lemma FourParts(a: string, b: string, c: string, d: string)
    ensures a + (b + c + d) == (a + b) + c + d
  {
  }

  lemma {:induction false} ReplacedNone(s: string, src: string, dst: string)
    requires src != "" && forall i: nat :: !OccursAt(s, src, i)
    ensures Replaced(s, src, dst) == s
  {
    if s != "" {
      Shifted(s, src);
      ReplacedNone(s[1..], src, dst);
      assert !OccursAt(s, src, 0);
    }
  }

  lemma Shifted(s: string, src: string)
    requires s != ""
    ensures forall i: nat :: OccursAt(s[1..], src, i) <==> OccursAt(s, src, i + 1)
  {
    forall i: nat
      ensures OccursAt(s[1..], src, i) <==> OccursAt(s, src, i + 1)
    {
      if i + 1 + |src| <= |s| {
        assert s[1..][i..i + |src|] == s[i + 1..i + 1 + |src|];
      }
    }
  }

  /** What find sees from `pos` on is what it sees in the rest of the string. */
  lemma TailOccurs(s: string, src: string, pos: nat)
    requires pos <= |s|
    ensures forall i: nat :: OccursAt(s[pos..], src, i) <==> OccursAt(s, src, pos + i)
  {
    forall i: nat
      ensures OccursAt(s[pos..], src, i) <==> OccursAt(s, src, pos + i)
    {
      if pos + i + |src| <= |s| {
        assert s[pos..][i..i + |src|] == s[pos + i..pos + i + |src|];
      }
    }
  }

  /** The string once everything from `pos` on is rewritten. */
  function Progress(s: string, pos: nat, src: string, dst: string): string
    requires src != "" && pos <= |s|
  {
    s[..pos] + Replaced(s[pos..], src, dst)
  }

  /** One turn of the loop: what is already rewritten stays, the rest is still
      to be rewritten. */
  lemma Turn(s: string, src: string, dst: string, pos: nat)
    requires src != "" && pos <= |s| && Find(s, src, pos).Some?
    ensures var p := Find(s, src, pos).value;
            var t := s[..p] + dst + s[p + |src|..];
            Progress(s, pos, src, dst) == Progress(t, p + |dst|, src, dst) && |t| - (p + |dst|) < |s| - pos
  {
    var p := Find(s, src, pos).value;
    RestAt(s, src, dst, pos, p);
    Rejoined(s[..p], dst, s[p + |src|..]);
  }

  lemma RestAt(s: string, src: string, dst: string, pos: nat, p: nat)
    requires src != "" && pos <= |s| && Find(s, src, pos) == Some(p)
    ensures Progress(s, pos, src, dst) == s[..p] + dst + Replaced(s[p + |src|..], src, dst)
  {
    FindFirst(s, src, pos);
    TailOccurs(s, src, pos);
    ReplacedAt(s[pos..], src, dst, p - pos);
    RestIs(s, src, dst, pos, p);
  }

  lemma RestIs(s: string, src: string, dst: string, pos: nat, p: nat)
    requires src != "" && pos <= p && p + |src| <= |s|
    requires Replaced(s[pos..], src, dst) == s[pos..][..p - pos] + dst + Replaced(s[pos..][p - pos + |src|..], src, dst)
    ensures Progress(s, pos, src, dst) == s[..p] + dst + Replaced(s[p + |src|..], src, dst)
  {
    hide Replaced;
    assert s[pos..][p - pos + |src|..] == s[p + |src|..];
    assert s[..pos] + s[pos..][..p - pos] == s[..p];
    FourParts(s[..pos], s[pos..][..p - pos], dst, Replaced(s[p + |src|..], src, dst));
  }

  lemma Rejoined(a: string, b: string, c: string)
    ensures (a + b + c)[..|a| + |b|] == a + b && (a + b + c)[|a| + |b|..] == c
  {
  }

  /** replace_string: the loop rewrites its argument in place. */
  method ReplaceString(s: string, src: string, dst: string) returns (orig: string)
    requires src != ""
    ensures orig == Replaced(s, src, dst)
  {
    hide Replaced, Progress, Find;
    orig := s;
    ghost var start: nat := 0;
    Whole(s, src, dst);
    var pos := Find(orig, src, 0);
    while pos.Some?
      invariant start <= |orig| && pos == Find(orig, src, start)
      invariant Progress(orig, start, src, dst) == Replaced(s, src, dst)
      decreases |orig| - start
    {
      var p := pos.value;
      Turn(orig, src, dst, start);
      orig := orig[..p] + dst + orig[p + |src|..];
      start := p + |dst|;
      pos := Find(orig, src, p + |dst|);
    }
    Finished(orig, src, dst, start);
  }

  lemma Finished(s: string, src: string, dst: string, pos: nat)
    requires src != "" && pos <= |s| && Find(s, src, pos).None?
    ensures Progress(s, pos, src, dst) == s
  {
    FindFirst(s, src, pos);
    TailOccurs(s, src, pos);
    ReplacedNone(s[pos..], src, dst);
    assert s[..pos] + s[pos..] == s;
  }

  lemma Whole(s: string, src: string, dst: string)
    requires src != ""
    ensures Progress(s, 0, src, dst) == Replaced(s, src, dst)
  {
    assert s[0..] == s;
    assert s[..0] + Replaced(s, src, dst) == Replaced(s, src, dst);
  }

  // --------------------------------------------------- character by character

  /** Every character becomes a string of its own. */
  function Mapped(s: string, f: char -> string): string {
    if s == "" then "" else f(s[0]) + Mapped(s[1..], f)
  }

  lemma {:induction false} MappedSplit(a: string, b: string, f: char -> string)
    ensures Mapped(a + b, f) == Mapped(a, f) + Mapped(b, f)
  {
    if a == "" {
      assert a + b == b;
    } else {
      MappedSplit(a[1..], b, f);
      assert (a + b)[1..] == a[1..] + b;
      AssociativeText(f(a[0]), Mapped(a[1..], f), Mapped(b, f));
    }
  }

  lemma AssociativeText(a: string, b: string, c: string)
    ensures a + b + c == a + (b + c)
  {
  }

  lemma {:induction false} OneCharacter(s: string, c: char, dst: string)
    ensures Replaced(s, [c], dst) == Mapped(s, x => if x == c then dst else [x])
  {
    if s != "" {
      OneCharacter(s[1..], c, dst);
      assert OccursAt(s, [c], 0) <==> s[0] == c;
    }
  }

  function Escaped(c: char): string {
    if c == '.' then "\\." else [c]
  }

  function Expanded(c: char): string {
    if c == '*' then ".*" else [c]
  }

  function Translated(c: char): string {
    if c == '.' then "\\." else if c == '*' then ".*" else [c]
  }

  lemma MappedOne(c: char, f: char -> string)
    ensures Mapped([c], f) == f(c)
  {
    assert [c][1..] == "";
    assert f(c) + "" == f(c);
  }

  lemma {:induction false} MappedTwice(s: string, f: char -> string, g: char -> string, h: char -> string)
    requires forall c :: Mapped(f(c), g) == h(c)
    ensures Mapped(Mapped(s, f), g) == Mapped(s, h)
  {
    if s != "" {
      MappedTwice(s[1..], f, g, h);
      MappedSplit(f(s[0]), Mapped(s[1..], f), g);
    }
  }

  lemma SameMap(s: string, f: char -> string, g: char -> string)
    requires forall c :: f(c) == g(c)
    ensures Mapped(s, f) == Mapped(s, g)
  {
  }

  lemma ExpandEscaped(c: char)
    ensures Mapped(Escaped(c), Expanded) == Translated(c)
  {
    if c == '.' {
      assert Escaped(c) == ['\\'] + ['.'];
      MappedSplit(['\\'], ['.'], Expanded);
      MappedOne('\\', Expanded);
      MappedOne('.', Expanded);
    } else {
      MappedOne(c, Expanded);
    }
  }

  /** Escaping the dots first makes the two passes one translation of the
      characters. */
  lemma {:induction false} TwoPasses(rule: string)
    ensures Replaced(Replaced(rule, ".", "\\."), "*", ".*") == Mapped(rule, Translated)
  {
    var dots := (x: char) => if x == '.' then "\\." else [x];
    var stars := (x: char) => if x == '*' then ".*" else [x];
    OneCharacter(rule, '.', "\\.");
    OneCharacter(Replaced(rule, ".", "\\."), '*', ".*");
    SameMap(rule, dots, Escaped);
    SameMap(Mapped(rule, Escaped), stars, Expanded);
    forall c
      ensures Mapped(Escaped(c), Expanded) == Translated(c)
    {
      ExpandEscaped(c);
    }
    MappedTwice(rule, Escaped, Expanded, Translated);
  }

  /** The other order would escape the dots that stars bring in: it agrees
      exactly on rules without a star. */
  lemma OtherOrderExact(rule: string)
    ensures Replaced(Replaced(rule, "*", ".*"), ".", "\\.") == Mapped(rule, Translated) <==> '*' !in rule
  {
    var dots := (x: char) => if x == '.' then "\\." else [x];
    var stars := (x: char) => if x == '*' then ".*" else [x];
    OneCharacter(rule, '*', ".*");
    OneCharacter(Replaced(rule, "*", ".*"), '.', "\\.");
    SameMap(rule, stars, Expanded);
    SameMap(Mapped(rule, Expanded), dots, Escaped);
    forall c
      ensures Mapped(Expanded(c), Escaped) == Doubled(c)
    {
      EscapeExpanded(c);
    }
    MappedTwice(rule, Expanded, Escaped, Doubled);
    LongerWithStars(rule);
  }

  function Doubled(c: char): string {
    if c == '.' then "\\." else if c == '*' then "\\.*" else [c]
  }

  lemma EscapeExpanded(c: char)
    ensures Mapped(Expanded(c), Escaped) == Doubled(c)
  {
    if c == '*' {
      assert Expanded(c) == ['.'] + ['*'];
      MappedSplit(['.'], ['*'], Escaped);
      MappedOne('.', Escaped);
      MappedOne('*', Escaped);
    } else {
      MappedOne(c, Escaped);
    }
  }

  lemma {:induction false} LongerWithStars(rule: string)
    ensures |Mapped(rule, Doubled)| >= |Mapped(rule, Translated)|
    ensures |Mapped(rule, Doubled)| == |Mapped(rule, Translated)| <==> '*' !in rule
    ensures '*' !in rule ==> Mapped(rule, Doubled) == Mapped(rule, Translated)
  {
    if rule != "" {
      LongerWithStars(rule[1..]);
      assert rule == [rule[0]] + rule[1..];
    }
  }

  // ------------------------------------------------- the regular expressions

  /** The part of ECMAScript's syntax that compiled rules use. */
  datatype Atom = Literal(c: char) | AnyOne | AnyMany | AtEnd

  predicate Meta(c: char) {
    c in "^$\\.*+?()[]{}|"
  }

  /** None for a pattern outside of that part. */
  function Parse(p: string): Option<seq<Atom>> {
    if p == "" then Some([])
    else if p[0] == '\\' then
      if |p| >= 2 && p[1] == '.' then Before(Literal('.'), Parse(p[2..])) else None
    else if p[0] == '.' then
      if |p| >= 2 && p[1] == '*' then Before(AnyMany, Parse(p[2..])) else Before(AnyOne, Parse(p[1..]))
    else if p[0] == '$' then Before(AtEnd, Parse(p[1..]))
    else if Meta(p[0]) then None
    else Before(Literal(p[0]), Parse(p[1..]))
  }

  function Before(a: Atom, rest: Option<seq<Atom>>): Option<seq<Atom>> {
    match rest
    case Some(atoms) => Some([a] + atoms)
    case None => None
  }

  predicate LineEnd(c: char) {
    c == '\n' || c == '\r'
  }

  /** The atoms match at the start of s. */
  predicate MatchesHere(atoms: seq<Atom>, s: string)
    decreases |s|, |atoms|
  {
    atoms == [] ||
    match atoms[0]
    case Literal(c) => s != "" && s[0] == c && MatchesHere(atoms[1..], s[1..])
    case AnyOne => s != "" && !LineEnd(s[0]) && MatchesHere(atoms[1..], s[1..])
    case AnyMany => MatchesHere(atoms[1..], s) || (s != "" && !LineEnd(s[0]) && MatchesHere(atoms, s[1..]))
    case AtEnd => s == "" && MatchesHere(atoms[1..], s)
  }

  /** regex_search: the atoms match somewhere in s. */
  predicate Search(atoms: seq<Atom>, s: string) {
    MatchesHere(atoms, s) || (s != "" && Search(atoms, s[1..]))
  }

  /** What a rule means: stars stand for any text, all else for itself. */
  predicate Wild(rule: string, s: string)
    decreases |rule|, |s|
  {
    if rule == "" then s == ""
    else if rule[0] == '*' then Wild(rule[1..], s) || (s != "" && Wild(rule, s[1..]))
    else s != "" && s[0] == rule[0] && Wild(rule[1..], s[1..])
  }

  ghost predicate SomeSuffix(rule: string, host: string) {
    exists k | 0 <= k <= |host| :: Wild(rule, host[k..])
  }

  /** Rules of host name characters, dots and stars. */
  predicate Plain(rule: string) {
    forall i | 0 <= i < |rule| :: rule[i] in ".*" || !Meta(rule[i])
  }

  predicate OneLine(s: string) {
    forall i | 0 <= i < |s| :: !LineEnd(s[i])
  }

  function AtomOf(c: char): Atom {
    if c == '*' then AnyMany else Literal(c)
  }

  function AtomsOf(rule: string): seq<Atom> {
    if rule == "" then [AtEnd] else [AtomOf(rule[0])] + AtomsOf(rule[1..])
  }

  /** Compiling and parsing: an atom for each character, and the end. */
  lemma {:induction false} CompiledAtoms(rule: string)
    requires Plain(rule)
    ensures Parse(Mapped(rule, Translated) + "$") == Some(AtomsOf(rule))
  {
    if rule == "" {
      assert "" + "$" == "$" && "$"[1..] == "";
      assert [AtEnd] + [] == [AtEnd];
    } else {
      var rest := Mapped(rule[1..], Translated) + "$";
      CompiledAtoms(rule[1..]);
      AssociativeText(Translated(rule[0]), Mapped(rule[1..], Translated), "$");
      ParseOne(rule[0], rest);
    }
  }

  lemma ParseOne(c: char, rest: string)
    requires c in ".*" || !Meta(c)
    ensures Parse(Translated(c) + rest) == Before(AtomOf(c), Parse(rest))
  {
    var p := Translated(c) + rest;
    if c == '.' || c == '*' {
      assert p[2..] == rest;
    } else {
      assert p[1..] == rest;
    }
  }

  /** Anchored at the end, the atoms match exactly what the rule matches. */
  lemma {:induction false} MatchesWild(rule: string, s: string)
    requires OneLine(s)
    ensures MatchesHere(AtomsOf(rule), s) <==> Wild(rule, s)
    decreases |s|, |rule|
  {
    if rule == "" {
      assert [AtEnd][1..] == [];
    } else {
      assert AtomsOf(rule)[1..] == AtomsOf(rule[1..]);
      if rule[0] == '*' {
        MatchesWild(rule[1..], s);
        if s != "" {
          MatchesWild(rule, s[1..]);
        }
      } else if s != "" {
        MatchesWild(rule[1..], s[1..]);
      }
    }
  }

  lemma {:induction false} SearchesSuffix(rule: string, s: string)
    requires OneLine(s)
    ensures Search(AtomsOf(rule), s) <==> SomeSuffix(rule, s)
  {
    MatchesWild(rule, s);
    assert s[0..] == s;
    if s != "" {
      SearchesSuffix(rule, s[1..]);
      forall k | 0 <= k < |s|
        ensures s[1..][k..] == s[k + 1..]
      {
      }
      if SomeSuffix(rule, s[1..]) {
        var k :| 0 <= k <= |s[1..]| && Wild(rule, s[1..][k..]);
        assert Wild(rule, s[k + 1..]);
      }
      if k :| 1 <= k <= |s| && Wild(rule, s[k..]) {
        assert s[1..][k - 1..] == s[k..];
      }
    }
  }

  /** A rule without stars is a plain suffix test. */
  lemma NoStarsIsSuffix(rule: string, host: string)
    requires '*' !in rule
    ensures SomeSuffix(rule, host) <==> |rule| <= |host| && host[|host| - |rule|..] == rule
  {
    forall k | 0 <= k <= |host|
      ensures Wild(rule, host[k..]) <==> host[k..] == rule
    {
      NoStars(rule, host[k..]);
    }
    if |rule| <= |host| && host[|host| - |rule|..] == rule {
      assert Wild(rule, host[|host| - |rule|..]);
    }
  }

  lemma {:induction false} NoStars(rule: string, s: string)
    requires '*' !in rule
    ensures Wild(rule, s) <==> s == rule
  {
    if rule != "" {
      assert rule[0] in rule && forall c | c in rule[1..] :: c in rule;
      if s != "" {
        NoStars(rule[1..], s[1..]);
        assert s == [s[0]] + s[1..] && rule == [rule[0]] + rule[1..];
      }
    }
  }

  // --------------------------------------------------------------- the lines

  /** line[i]; at its end a std::string has a null character. */
  function CharAt(line: string, i: nat): char {
    if i < |line| then line[i] else '\0'
  }

  predicate Space(c: char) {
    c in " \t\n\U{0B}\U{0C}\r"
  }

  /** Comments, exceptions and indented lines. */
  predicate Skipped(line: string) {
    CharAt(line, 0) == '!' || (CharAt(line, 0) == '@' && CharAt(line, 1) == '@') || Space(CharAt(line, 0))
  }

  function After(s: string, pat: string): string {
    match Find(s, pat, 0)
    case Some(i) => s[i + |pat|..]
    case None => s
  }

  function UpTo(s: string, pat: string): string {
    match Find(s, pat, 0)
    case Some(i) => s[..i]
    case None => s
  }

  /** The host part of a line: no bars, nothing up to "//", nothing from "/". */
  function RuleOf(line: string): string {
    UpTo(After(Replaced(line, "|", ""), "//"), "/")
  }

  predicate Used(line: string) {
    !Skipped(line) && RuleOf(line) != ""
  }

  // --------------------------------------- what a line says, without cutting

  /** Lines that are there for other readers: comments, exceptions, indented. */
  predicate Comment(line: string) {
    line != "" && (line[0] in "! \t\n\U{0B}\U{0C}\r" || "@@" <= line)
  }

  function WithoutBars(line: string): string {
    if line == "" then "" else (if line[0] == '|' then "" else [line[0]]) + WithoutBars(line[1..])
  }

  predicate TwoSlashes(s: string) {
    exists i | 0 <= i < |s| - 1 :: s[i] == '/' && s[i + 1] == '/'
  }

  /** s is h, or h with a path behind it; no slash is in h. */
  predicate HostThen(s: string, h: string, path: string) {
    s == h + path && '/' !in h && (path == "" || path[0] == '/')
  }

  /** b is a scheme, two slashes, h, and maybe a path. The slashes are the first
      two in a row. */
  predicate SchemeThen(b: string, scheme: string, h: string, path: string) {
    b == scheme + "//" + h + path && HostThen(h + path, h, path) && !TwoSlashes(scheme + "/")
  }

  /** h is what the line says of hosts, with a scheme or without. */
  ghost predicate HostPart(line: string, h: string) {
    var b := WithoutBars(line);
    || (exists scheme, path :: SchemeThen(b, scheme, h, path))
    || (!TwoSlashes(b) && exists path :: HostThen(b, h, path))
  }

  /** The line has a rule for h. */
  ghost predicate RuleFor(line: string, h: string) {
    !Comment(line) && h != "" && HostPart(line, h)
  }

  lemma {:induction false} BarsGone(line: string)
    ensures Replaced(line, "|", "") == WithoutBars(line)
  {
    if line != "" {
      BarsGone(line[1..]);
      assert OccursAt(line, "|", 0) <==> line[0] == '|';
    }
  }

  lemma SkippedExact(line: string)
    ensures Skipped(line) <==> Comment(line)
  {
    if |line| >= 2 {
      assert "@@" <= line <==> line[0] == '@' && line[1] == '@';
    }
  }

  lemma SlashAt(s: string, i: nat)
    ensures OccursAt(s, "/", i) <==> i < |s| && s[i] == '/'
    ensures OccursAt(s, "//", i) <==> i + 1 < |s| && s[i] == '/' && s[i + 1] == '/'
  {
    if i + 2 <= |s| {
      assert s[i..i + 2] == [s[i], s[i + 1]];
    }
    if i + 1 <= |s| {
      assert s[i..i + 1] == [s[i]];
    }
  }

  /** The cut at "/". */
  lemma UpToSlash(s: string, h: string, path: string)
    requires HostThen(s, h, path)
    ensures UpTo(s, "/") == h
  {
    FindFirst(s, "/", 0);
    forall i: nat
      ensures OccursAt(s, "/", i) <==> i < |s| && s[i] == '/'
    {
      SlashAt(s, i);
    }
    if path != "" {
      assert s[|h|] == '/';
      assert OccursAt(s, "/", |h|);
    }
    assert forall i | 0 <= i < |h| :: s[i] == h[i];
  }

  /** The cut behind "//". */
  lemma AfterSlashes(b: string, scheme: string, rest: string)
    requires b == scheme + "//" + rest && !TwoSlashes(scheme + "/")
    ensures After(b, "//") == rest
  {
    FindFirst(b, "//", 0);
    SlashAt(b, |scheme|);
    assert b[|scheme|] == '/' && b[|scheme| + 1] == '/';
    forall i: nat | i < |scheme|
      ensures !OccursAt(b, "//", i)
    {
      SlashAt(b, i);
      var s := scheme + "/";
      assert b[i] == s[i] && b[i + 1] == s[i + 1];
    }
    assert Find(b, "//", 0) == Some(|scheme|);
  }

  lemma NoCut(b: string)
    requires !TwoSlashes(b)
    ensures After(b, "//") == b
  {
    if Find(b, "//", 0).Some? {
      SlashAt(b, Find(b, "//", 0).value);
    }
  }

  /** Whatever the line says of hosts is what the two cuts leave. */
  lemma HostPartIsRule(line: string, h: string)
    requires HostPart(line, h)
    ensures RuleOf(line) == h
  {
    var b := WithoutBars(line);
    BarsGone(line);
    if scheme, path :| SchemeThen(b, scheme, h, path) {
      assert b == scheme + "//" + (h + path);
      AfterSlashes(b, scheme, h + path);
      UpToSlash(h + path, h, path);
    } else {
      var path :| HostThen(b, h, path);
      NoCut(b);
      UpToSlash(b, h, path);
    }
  }

  lemma HostOf(s: string)
    ensures HostThen(s, UpTo(s, "/"), s[|UpTo(s, "/")|..])
  {
    FindFirst(s, "/", 0);
    var h := UpTo(s, "/");
    forall i | 0 <= i < |h|
      ensures h[i] != '/'
    {
      SlashAt(s, i);
    }
    if Find(s, "/", 0).Some? {
      SlashAt(s, |h|);
    }
  }

  lemma CutInFour(b: string, i: nat, h: string, path: string)
    requires OccursAt(b, "//", i) && b[i + 2..] == h + path
    ensures b == b[..i] + "//" + h + path
  {
    assert b == b[..i] + b[i..i + 2] + b[i + 2..];
    assert b[..i] + "//" + (h + path) == b[..i] + "//" + h + path;
  }

  lemma SchemeFound(b: string, i: nat)
    requires Find(b, "//", 0) == Some(i)
    ensures var rest := b[i + 2..];
            var h := UpTo(rest, "/");
            SchemeThen(b, b[..i], h, rest[|h|..])
  {
    hide TwoSlashes, UpTo, Find;
    var rest := b[i + 2..];
    FindFirst(b, "//", 0);
    SlashAt(b, i);
    HostOf(rest);
    var h := UpTo(rest, "/");
    FirstTwoSlashes(b, i);
    CutInFour(b, i, h, rest[|h|..]);
  }

  lemma NoSchemeFound(b: string)
    requires Find(b, "//", 0).None?
    ensures !TwoSlashes(b)
  {
    FindFirst(b, "//", 0);
    forall i | 0 <= i < |b| - 1
      ensures !(b[i] == '/' && b[i + 1] == '/')
    {
      SlashAt(b, i);
    }
  }

  /** Every line says something, if only the empty text. */
  lemma RuleIsHostPart(line: string)
    ensures HostPart(line, RuleOf(line))
  {
    hide TwoSlashes, SchemeThen, HostThen;
    var b := WithoutBars(line);
    BarsGone(line);
    match Find(b, "//", 0)
    case Some(i) =>
      SchemeFound(b, i);
      assert SchemeThen(b, b[..i], RuleOf(line), b[i + 2..][|RuleOf(line)|..]);
    case None =>
      NoSchemeFound(b);
      HostOf(b);
      assert HostThen(b, RuleOf(line), b[|RuleOf(line)|..]);
  }

  lemma FirstTwoSlashes(b: string, i: nat)
    requires i + 1 < |b| && b[i] == '/' && forall k: nat | k < i :: !OccursAt(b, "//", k)
    ensures !TwoSlashes(b[..i] + "/")
  {
    var s := b[..i] + "/";
    forall k | 0 <= k < |s| - 1
      ensures !(s[k] == '/' && s[k + 1] == '/')
    {
      SlashAt(b, k);
    }
  }

  /** Exactly one text is the host part of a line. */
  lemma HostPartExact(line: string, h: string)
    ensures HostPart(line, h) <==> h == RuleOf(line)
  {
    RuleIsHostPart(line);
    if HostPart(line, h) {
      HostPartIsRule(line, h);
    }
  }

  /** Which lines have a rule, and for what. */
  lemma UsedExact(line: string)
    ensures forall h :: RuleFor(line, h) <==> Used(line) && h == RuleOf(line)
    ensures Used(line) <==> RuleFor(line, RuleOf(line))
  {
    hide HostPart, RuleOf, Skipped, Comment;
    SkippedExact(line);
    forall h
      ensures RuleFor(line, h) <==> Used(line) && h == RuleOf(line)
    {
      HostPartExact(line, h);
    }
  }

  function Compiled(line: string): string {
    Mapped(RuleOf(line), Translated) + "$"
  }

  /** All of a list's rules; its first line is a title. */
  function CompiledList(lines: seq<string>): seq<string> {
    if |lines| <= 1 then []
    else CompiledList(lines[..|lines| - 1]) + if Used(lines[|lines| - 1]) then [Compiled(lines[|lines| - 1])] else []
  }

  /** std::unique: of equal neighbours one is left. */
  function Unique(hs: seq<string>): seq<string> {
    if |hs| < 2 then hs
    else if hs[0] == hs[1] then Unique(hs[1..])
    else [hs[0]] + Unique(hs[1..])
  }

  predicate Found(pattern: string, host: string) {
    match Parse(pattern)
    case Some(atoms) => Search(atoms, host)
    case None => false
  }

  /** An empty list blocks everything. */
  predicate Blocked(hs: seq<string>, host: string) {
    hs == [] || exists i | 0 <= i < |hs| :: Found(hs[i], host)
  }

  lemma {:induction false} UniqueMembers(hs: seq<string>)
    ensures forall h :: h in Unique(hs) <==> h in hs
    ensures Unique(hs) == [] <==> hs == []
  {
    if |hs| >= 2 {
      UniqueMembers(hs[1..]);
      assert hs == [hs[0]] + hs[1..];
      assert hs[1] in hs[1..];
    }
  }

  /** hs is u with elements repeated on the spot. */
  predicate Stutters(u: seq<string>, hs: seq<string>) {
    if hs == [] then u == []
    else u != [] && hs[0] == u[0] && (Stutters(u, hs[1..]) || Stutters(u[1..], hs[1..]))
  }

  /** No equal neighbours are left, nothing else is gone, and the order stays. */
  lemma {:induction false} UniqueExact(hs: seq<string>)
    ensures forall i | 0 <= i < |Unique(hs)| - 1 :: Unique(hs)[i] != Unique(hs)[i + 1]
    ensures Stutters(Unique(hs), hs)
    ensures hs != [] ==> Unique(hs) != [] && Unique(hs)[0] == hs[0]
  {
    if |hs| >= 2 {
      UniqueExact(hs[1..]);
      if hs[0] != hs[1] {
        assert Unique(hs)[1..] == Unique(hs[1..]);
      }
    } else if |hs| == 1 {
      assert Stutters(hs[1..], hs[1..]);
    }
  }

  /** std::unique changes no answer. */
  lemma UniqueAnswers(hs: seq<string>, host: string)
    ensures Blocked(Unique(hs), host) <==> Blocked(hs, host)
  {
    UniqueMembers(hs);
    BlockedByMember(hs, host);
    BlockedByMember(Unique(hs), host);
  }

  lemma BlockedByMember(hs: seq<string>, host: string)
    ensures Blocked(hs, host) <==> hs == [] || exists h | h in hs :: Found(h, host)
  {
    if i :| 0 <= i < |hs| && Found(hs[i], host) {
      assert hs[i] in hs;
    }
    if h :| h in hs && Found(h, host) {
      var i :| 0 <= i < |hs| && hs[i] == h;
    }
  }

  /** Pattern h comes from line j. */
  predicate From(lines: seq<string>, j: nat, h: string) {
    1 <= j < |lines| && Used(lines[j]) && Compiled(lines[j]) == h
  }

  lemma {:induction false} CompiledFrom(lines: seq<string>, h: string)
    ensures h in CompiledList(lines) <==> exists j: nat :: From(lines, j, h)
  {
    hide Used, Compiled;
    if |lines| > 1 {
      var n := |lines| - 1;
      CompiledFrom(lines[..n], h);
      if j: nat :| From(lines[..n], j, h) {
        assert From(lines, j, h);
      }
      if j: nat :| From(lines, j, h) {
        assert j < n ==> From(lines[..n], j, h);
      }
      if From(lines, n, h) {
      } else {
      }
    }
  }

  lemma RuleFound(rule: string, host: string)
    requires Plain(rule) && OneLine(host)
    ensures Found(Mapped(rule, Translated) + "$", host) <==> SomeSuffix(rule, host)
  {
    CompiledAtoms(rule);
    SearchesSuffix(rule, host);
  }

  lemma NothingUsed(lines: seq<string>)
    ensures CompiledList(lines) == [] <==> forall j | 1 <= j < |lines| :: !Used(lines[j])
  {
    if CompiledList(lines) != [] {
      CompiledFrom(lines, CompiledList(lines)[0]);
    }
    if j: nat :| 1 <= j < |lines| && Used(lines[j]) {
      assert From(lines, j, Compiled(lines[j]));
      CompiledFrom(lines, Compiled(lines[j]));
    }
  }

  /** Compilation preserves the meaning of a list: a host is blocked exactly
      when some suffix of it is what some line's wildcard rule describes, or
      when there is no rule at all. */
  lemma ListMeaning(lines: seq<string>, host: string)
    requires forall j, h | 1 <= j < |lines| && RuleFor(lines[j], h) :: Plain(h)
    requires OneLine(host)
    ensures Blocked(Unique(CompiledList(lines)), host) <==>
              || (forall j, h | 1 <= j < |lines| :: !RuleFor(lines[j], h))
              || exists j, h :: 1 <= j < |lines| && RuleFor(lines[j], h) && SomeSuffix(h, host)
  {
    hide RuleFor, SomeSuffix, Used, RuleOf;
    forall j | 1 <= j < |lines|
      ensures forall h :: RuleFor(lines[j], h) <==> Used(lines[j]) && h == RuleOf(lines[j])
      ensures Used(lines[j]) <==> RuleFor(lines[j], RuleOf(lines[j]))
    {
      UsedExact(lines[j]);
    }
    CutMeaning(lines, host);
  }

  lemma CutMeaning(lines: seq<string>, host: string)
    requires forall j | 1 <= j < |lines| && Used(lines[j]) :: Plain(RuleOf(lines[j]))
    requires OneLine(host)
    ensures Blocked(Unique(CompiledList(lines)), host) <==>
              || (forall j | 1 <= j < |lines| :: !Used(lines[j]))
              || exists j | 1 <= j < |lines| :: Used(lines[j]) && SomeSuffix(RuleOf(lines[j]), host)
  {
    var hs := CompiledList(lines);
    UniqueAnswers(hs, host);
    BlockedByMember(hs, host);
    NothingUsed(lines);
    if h :| h in hs && Found(h, host) {
      CompiledFrom(lines, h);
      var j: nat :| From(lines, j, h);
      RuleFound(RuleOf(lines[j]), host);
    }
    if j: nat :| 1 <= j < |lines| && Used(lines[j]) && SomeSuffix(RuleOf(lines[j]), host) {
      assert From(lines, j, Compiled(lines[j]));
      CompiledFrom(lines, Compiled(lines[j]));
      RuleFound(RuleOf(lines[j]), host);
    }
  }

  /** What a search with std::regex comes to: it also throws, on a pattern that it
      does not accept. */
  datatype Verdict = Matches | Misses | Throws

  /** The library's answer; `other` is what it does with patterns outside of the
      modelled part of its syntax. */
  function Look(pattern: string, host: string, other: (string, string) -> Verdict): Verdict {
    match Parse(pattern)
    case Some(atoms) => if Search(atoms, host) then Matches else Misses
    case None => other(pattern, host)
  }

  ghost predicate DecidedBy(hs: seq<string>, host: string, other: (string, string) -> Verdict, v: Verdict) {
    exists i | 0 <= i < |hs| ::
      Look(hs[i], host, other) == v && forall j | 0 <= j < i :: Look(hs[j], host, other) == Misses
  }

  class GfwList {
    var hosts: seq<string>

    constructor ()
      ensures hosts == []
    {
      hosts := [];
    }

    /** The rewriting of one line in load_list; None if it adds no rule. */
    method CompileLine(text: string) returns (rule: Option<string>)
      ensures rule == if Used(text) then Some(Compiled(text)) else None
      ensures rule.None? <==> forall h :: !RuleFor(text, h)
      ensures forall h | RuleFor(text, h) :: rule == Some(Mapped(h, Translated) + "$")
    {
      hide RuleFor;
      UsedExact(text);
      var line := text;
      if CharAt(line, 0) == '!' || (CharAt(line, 0) == '@' && CharAt(line, 1) == '@') || Space(CharAt(line, 0)) {
        return None;
      }
      line := ReplaceString(line, "|", "");
      var pos := Find(line, "//", 0);
      if pos.Some? {
        line := line[pos.value + 2..];
      }
      pos := Find(line, "/", 0);
      if pos.Some? {
        line := line[..pos.value];
      }
      assert line == RuleOf(text);
      TwoPasses(line);
      NothingVanishes(line);
      line := ReplaceString(line, ".", "\\.");
      line := ReplaceString(line, "*", ".*");
      if line == "" {
        return None;
      }
      rule := Some(line + "$");
    }

    /** load_list, given the lines of the file. */
    method LoadList(lines: seq<string>)
      modifies this
      ensures hosts == Unique(old(hosts) + CompiledList(lines))
    {
      ghost var before := hosts;
      var n := 1;
      assert before + [] == before;
      while n < |lines|
        invariant 1 <= n && (n <= |lines| || n == 1)
        invariant hosts == before + CompiledList(if n <= |lines| then lines[..n] else lines)
      {
        var rule := CompileLine(lines[n]);
        assert lines[..n + 1][..n] == lines[..n];
        AssociativeRules(before, CompiledList(lines[..n]), if rule.Some? then [rule.value] else []);
        if rule.Some? {
          hosts := hosts + [rule.value];
        }
        n := n + 1;
      }
      assert lines[..|lines|] == lines;
      hosts := Unique(hosts);
    }

    method AddHost(host: string)
      modifies this
      ensures hosts == old(hosts) + [host]
    {
      hosts := hosts + [host];
    }

    /** The search stops at the first pattern that matches, or that the library
        refuses. */
    method IsBlocked(host: string, other: (string, string) -> Verdict) returns (v: Verdict)
      ensures hosts == [] ==> v == Matches
      ensures hosts != [] && v == Misses ==> forall i | 0 <= i < |hosts| :: Look(hosts[i], host, other) == Misses
      ensures hosts != [] && v != Misses ==> DecidedBy(hosts, host, other, v)
      ensures (forall i | 0 <= i < |hosts| :: Parse(hosts[i]).Some?) ==> v == if Blocked(hosts, host) then Matches else Misses
    {
      if |hosts| == 0 {
        return Matches;
      }
      for i := 0 to |hosts|
        invariant forall j | 0 <= j < i :: Look(hosts[j], host, other) == Misses
      {
        v := Look(hosts[i], host, other);
        if v != Misses {
          return;
        }
      }
      return Misses;
    }
  }

  lemma AssociativeRules(a: seq<string>, b: seq<string>, c: seq<string>)
    ensures a + b + c == a + (b + c)
  {
  }

  lemma NothingVanishes(rule: string)
    ensures Mapped(rule, Translated) == "" <==> rule == ""
  {
  }
}
