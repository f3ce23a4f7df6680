/** The normal form of an address, and the text of the lock that serialises invitations for it. */
module Email {
  import opened Schema

  // --------------------------------------------------------------- characters

  /** Unicode `White_Space`. */
  predicate IsSpace(c: char) {
    '\U{9}' <= c <= '\U{D}' || c == ' ' || c == '\U{85}' || c == '\U{A0}' || c == '\U{1680}' ||
    '\U{2000}' <= c <= '\U{200A}' ||
    c == '\U{2028}' || c == '\U{2029}' || c == '\U{202F}' || c == '\U{205F}' || c == '\U{3000}'
  }

  predicate IsAscii(c: char) {
    c <= '\U{7F}'
  }

  predicate IsAlphanumeric(c: char) {
    'a' <= c <= 'z' || 'A' <= c <= 'Z' || '0' <= c <= '9'
  }

  predicate IsLocal(c: char) {
    IsAlphanumeric(c) || c in "._%+-"
  }

  predicate IsLabel(c: char) {
    IsAlphanumeric(c) || c == '-'
  }

  function Lower(c: char): char {
    if 'A' <= c <= 'Z' then (c as int + 32) as char else c
  }

  /** `to_ascii_lowercase`. */
  function Lowered(s: string): (r: string)
    ensures |r| == |s| && forall i | 0 <= i < |s| :: r[i] == Lower(s[i])
  {
    seq(|s|, i requires 0 <= i < |s| => Lower(s[i]))
  }

  // ------------------------------------------------------------------ pieces

  function TrimStart(s: string): string {
    if s != [] && IsSpace(s[0]) then TrimStart(s[1..]) else s
  }

  function TrimEnd(s: string): string {
    if s != [] && IsSpace(s[|s| - 1]) then TrimEnd(s[..|s| - 1]) else s
  }

  /** `str::trim`. */
  function Trim(s: string): string {
    TrimEnd(TrimStart(s))
  }

  /** The position of the first `c`, or the length. */
  function Find(s: string, c: char): (k: nat)
    ensures k <= |s| && (k < |s| ==> s[k] == c) && forall i | 0 <= i < k :: s[i] != c
  {
    if s == [] || s[0] == c then 0 else 1 + Find(s[1..], c)
  }

  /** `split('.')`. */
  function Labels(s: string): seq<string>
    decreases |s|
  {
    var k := Find(s, '.');
    if k == |s| then [s] else [s[..k]] + Labels(s[k + 1..])
  }

  predicate HasDoubleDot(s: string) {
    exists i :: 0 <= i < |s| - 1 && s[i] == '.' && s[i + 1] == '.'
  }

  predicate LocalOk(local: string) {
    && 1 <= |local| <= 64
    && local[0] != '.' && local[|local| - 1] != '.' && !HasDoubleDot(local)
    && forall i | 0 <= i < |local| :: IsLocal(local[i])
  }

  predicate LabelOk(part: string) {
    && 1 <= |part| <= 63
    && part[0] != '-' && part[|part| - 1] != '-'
    && forall i | 0 <= i < |part| :: IsLabel(part[i])
  }

  predicate LabelsOk(labels: seq<string>) {
    forall n | 0 <= n < |labels| :: LabelOk(labels[n])
  }

  /** `normalize_email`. */
  function NormalizeEmail(value: string): Option<string> {
    var s := Trim(value);
    if !(3 <= |s| <= 320) || !(forall i | 0 <= i < |s| :: IsAscii(s[i])) then None
    else
      var at := Find(s, '@');
      if at == |s| then None
      else
        var local, domain := s[..at], s[at + 1..];
        if !(1 <= |domain| <= 255) || '@' in domain || !LocalOk(local) || !LabelsOk(Labels(domain)) then None
        else Some(Lowered(s))
  }

  // ---------------------------------------------------------------- whitespace

  predicate Blank(s: string) {
    forall i | 0 <= i < |s| :: IsSpace(s[i])
  }

  lemma {:induction false} TrimStartSkips(blank: string, s: string)
    requires Blank(blank)
    ensures TrimStart(blank + s) == TrimStart(s)
  {
    if blank == [] {
      assert blank + s == s;
    } else {
      assert (blank + s)[1..] == blank[1..] + s;
      TrimStartSkips(blank[1..], s);
    }
  }

  lemma {:induction false} TrimEndSkips(s: string, blank: string)
    requires Blank(blank)
    ensures TrimEnd(s + blank) == TrimEnd(s)
    decreases |blank|
  {
    if blank == [] {
      assert s + blank == s;
    } else {
      assert (s + blank)[..|s + blank| - 1] == s + blank[..|blank| - 1];
      TrimEndSkips(s, blank[..|blank| - 1]);
    }
  }

  /** Trimming the start commutes with appending blanks, as far as trimming the end can see. */
  lemma {:induction false} TrimAround(s: string, blank: string)
    requires Blank(blank)
    ensures Trim(s + blank) == Trim(s)
    decreases |s|
  {
    if s == [] {
      assert s + blank == blank && blank + [] == blank;
      TrimStartSkips(blank, []);
    } else if IsSpace(s[0]) {
      assert (s + blank)[1..] == s[1..] + blank;
      TrimAround(s[1..], blank);
    } else {
      assert TrimStart(s + blank) == s + blank;
      TrimEndSkips(s, blank);
    }
  }

  /** Surrounding whitespace does not matter. */
  lemma SpacesDoNotMatter(before: string, value: string, after: string)
    requires Blank(before) && Blank(after)
    ensures NormalizeEmail(before + value + after) == NormalizeEmail(value)
  {
    hide Labels, LocalOk, LabelsOk;
    assert before + value + after == before + (value + after);
    TrimStartSkips(before, value + after);
    TrimAround(value, after);
  }

  // -------------------------------------------------------------------- case

  lemma LowerKeepsClasses(c: char)
    ensures IsSpace(Lower(c)) <==> IsSpace(c)
    ensures IsAscii(Lower(c)) <==> IsAscii(c)
    ensures IsLocal(Lower(c)) <==> IsLocal(c)
    ensures IsLabel(Lower(c)) <==> IsLabel(c)
    ensures Lower(c) == '@' <==> c == '@'
    ensures Lower(c) == '.' <==> c == '.'
    ensures Lower(c) == '-' <==> c == '-'
    ensures Lower(Lower(c)) == Lower(c)
  {
  }

  lemma {:induction false} LowerTrimStart(s: string)
    ensures TrimStart(Lowered(s)) == Lowered(TrimStart(s))
  {
    if s != [] {
      LowerKeepsClasses(s[0]);
      assert Lowered(s)[1..] == Lowered(s[1..]);
      LowerTrimStart(s[1..]);
    }
  }

  lemma {:induction false} LowerTrimEnd(s: string)
    ensures TrimEnd(Lowered(s)) == Lowered(TrimEnd(s))
  {
    if s != [] {
      LowerKeepsClasses(s[|s| - 1]);
      assert Lowered(s)[..|s| - 1] == Lowered(s[..|s| - 1]);
      LowerTrimEnd(s[..|s| - 1]);
    }
  }

  lemma {:induction false} LowerFind(s: string, c: char)
    requires c == '@' || c == '.'
    ensures Find(Lowered(s), c) == Find(s, c)
  {
    if s != [] {
      LowerKeepsClasses(s[0]);
      assert Lowered(s)[1..] == Lowered(s[1..]);
      LowerFind(s[1..], c);
    }
  }

  lemma LowerLabel(s: string)
    ensures LabelOk(Lowered(s)) <==> LabelOk(s)
  {
    forall i | 0 <= i < |s| ensures IsLabel(Lowered(s)[i]) <==> IsLabel(s[i]) { LowerKeepsClasses(s[i]); }
    if s != [] {
      LowerKeepsClasses(s[0]);
      LowerKeepsClasses(s[|s| - 1]);
    }
  }

  lemma {:induction false} LowerLabels(s: string)
    ensures LabelsOk(Labels(Lowered(s))) <==> LabelsOk(Labels(s))
    decreases |s|
  {
    hide LabelOk;
    var k := Find(s, '.');
    LowerFind(s, '.');
    if k == |s| {
      LowerLabel(s);
      LabelsCons(s, []);
      LabelsCons(Lowered(s), []);
    } else {
      assert Lowered(s)[..k] == Lowered(s[..k]) && Lowered(s)[k + 1..] == Lowered(s[k + 1..]);
      LowerLabel(s[..k]);
      LowerLabels(s[k + 1..]);
      LabelsCons(s[..k], Labels(s[k + 1..]));
      LabelsCons(Lowered(s[..k]), Labels(Lowered(s[k + 1..])));
    }
  }

  lemma LabelsCons(part: string, labels: seq<string>)
    ensures LabelsOk([part] + labels) <==> LabelOk(part) && LabelsOk(labels)
  {
    hide LabelOk;
    assert ([part] + labels)[0] == part;
    assert forall n | 0 <= n < |labels| :: ([part] + labels)[n + 1] == labels[n];
  }

  lemma LowerLocal(s: string)
    ensures LocalOk(Lowered(s)) <==> LocalOk(s)
  {
    forall i | 0 <= i < |s|
      ensures (IsLocal(Lowered(s)[i]) <==> IsLocal(s[i])) && (Lowered(s)[i] == '.' <==> s[i] == '.')
    {
      LowerKeepsClasses(s[i]);
    }
  }

  /** Letter case does not matter. */
  lemma CaseDoesNotMatter(value: string)
    ensures NormalizeEmail(Lowered(value)) == NormalizeEmail(value)
  {
    hide LocalOk, LabelsOk, Labels, TrimStart, TrimEnd;
    LowerTrimStart(value);
    LowerTrimEnd(TrimStart(value));
    var s := Trim(value);
    var at := Find(s, '@');
    LowerFind(s, '@');
    forall i | 0 <= i < |s|
      ensures (IsAscii(Lowered(s)[i]) <==> IsAscii(s[i])) && (Lowered(s)[i] == '@' <==> s[i] == '@')
      ensures Lower(Lower(s[i])) == Lower(s[i])
    {
      LowerKeepsClasses(s[i]);
    }
    assert Lowered(Lowered(s)) == Lowered(s);
    if at < |s| {
      assert Lowered(s)[..at] == Lowered(s[..at]) && Lowered(s)[at + 1..] == Lowered(s[at + 1..]);
      LowerLocal(s[..at]);
      LowerLabels(s[at + 1..]);
      LowerContains(s[at + 1..]);
    }
  }

  lemma LowerContains(s: string)
    ensures '@' in Lowered(s) <==> '@' in s
  {
    forall i | 0 <= i < |s| ensures Lowered(s)[i] == '@' <==> s[i] == '@' { LowerKeepsClasses(s[i]); }
    if '@' in s {
      var i :| 0 <= i < |s| && s[i] == '@';
      assert Lowered(s)[i] == '@';
    }
  }

  // --------------------------------------------------------------- idempotence

  lemma {:induction false} TrimStartTrims(s: string)
    ensures TrimStart(s) == [] || !IsSpace(TrimStart(s)[0])
    ensures TrimStart(TrimStart(s)) == TrimStart(s)
  {
    if s != [] { TrimStartTrims(s[1..]); }
  }

  lemma {:induction false} TrimEndTrims(s: string)
    ensures TrimEnd(TrimEnd(s)) == TrimEnd(s)
    ensures TrimEnd(s) <= s
  {
    if s != [] { TrimEndTrims(s[..|s| - 1]); }
  }

  lemma TrimTrims(s: string)
    ensures Trim(Trim(s)) == Trim(s)
  {
    TrimStartTrims(s);
    TrimEndTrims(TrimStart(s));
    assert Trim(s) <= TrimStart(s);
    assert TrimStart(Trim(s)) == Trim(s);
  }

  /** A normal form is its own normal form. */
  lemma NormalizingIsIdempotent(value: string)
    requires NormalizeEmail(value).Some?
    ensures NormalizeEmail(NormalizeEmail(value).value) == NormalizeEmail(value)
  {
    hide LocalOk, LabelsOk, Labels, TrimStart, TrimEnd;
    TrimTrims(value);
    CaseDoesNotMatter(Trim(value));
  }

  /** The two characters are one, or the upper and lower case of one ASCII letter. */
  predicate SameLetter(c: char, d: char) {
    c == d || ('A' <= c <= 'Z' && d as int == c as int + 32) || ('A' <= d <= 'Z' && c as int == d as int + 32)
  }

  predicate SameLetters(s: string, t: string) {
    |s| == |t| && forall i | 0 <= i < |s| :: SameLetter(s[i], t[i])
  }

  /** The text is `s` with blanks around it. */
  ghost predicate Surrounds(text: string, s: string) {
    exists before, after :: Blank(before) && Blank(after) && text == before + s + after
  }

  lemma BlankJoins(s: string, t: string)
    requires Blank(s) && Blank(t)
    ensures Blank(s + t)
  {
    hide IsSpace;
  }

  lemma Reassociate(s: string, t: string, u: string)
    ensures (s + t) + u == s + (t + u)
  {
  }

  lemma {:induction false} TrimStartSplits(s: string) returns (blank: string)
    ensures Blank(blank) && s == blank + TrimStart(s)
  {
    hide IsSpace;
    if s != [] && IsSpace(s[0]) {
      var rest := TrimStartSplits(s[1..]);
      blank := [s[0]] + rest;
      BlankJoins([s[0]], rest);
      Reassociate([s[0]], rest, TrimStart(s[1..]));
      assert s == [s[0]] + s[1..];
    } else {
      blank := [];
    }
  }

  lemma {:induction false} TrimEndSplits(s: string) returns (blank: string)
    ensures Blank(blank) && s == TrimEnd(s) + blank
  {
    hide IsSpace;
    if s != [] && IsSpace(s[|s| - 1]) {
      var rest := TrimEndSplits(s[..|s| - 1]);
      blank := rest + [s[|s| - 1]];
      BlankJoins(rest, [s[|s| - 1]]);
      Reassociate(TrimEnd(s[..|s| - 1]), rest, [s[|s| - 1]]);
      assert s == s[..|s| - 1] + [s[|s| - 1]];
    } else {
      blank := [];
    }
  }

  lemma TrimIsSurrounded(s: string)
    ensures Surrounds(s, Trim(s))
  {
    var before := TrimStartSplits(s);
    var after := TrimEndSplits(TrimStart(s));
    assert s == before + Trim(s) + after;
  }

  lemma SameLettersLower(s: string, t: string)
    ensures SameLetters(s, t) <==> Lowered(s) == Lowered(t)
  {
    if Lowered(s) == Lowered(t) {
      forall i | 0 <= i < |s| ensures SameLetter(s[i], t[i]) {
        assert Lowered(s)[i] == Lowered(t)[i];
      }
    }
  }

  ghost predicate OneAddress(a: string, b: string) {
    exists s, t :: Surrounds(a, s) && Surrounds(b, t) && SameLetters(s, t)
  }

  /** Two accepted texts are one address to the system if and only if they are blanks around texts of the same
      letters, case aside. */
  lemma SameAddressIff(a: string, b: string)
    requires NormalizeEmail(a).Some? && NormalizeEmail(b).Some?
    ensures NormalizeEmail(a) == NormalizeEmail(b) <==> OneAddress(a, b)
  {
    hide LocalOk, LabelsOk, Labels, TrimStart, TrimEnd;
    if NormalizeEmail(a) == NormalizeEmail(b) {
      TrimIsSurrounded(a);
      TrimIsSurrounded(b);
      SameLettersLower(Trim(a), Trim(b));
    }
    if OneAddress(a, b) {
      OneAddressNormalizesAlike(a, b);
    }
  }

  lemma OneAddressNormalizesAlike(a: string, b: string)
    requires OneAddress(a, b)
    ensures NormalizeEmail(a) == NormalizeEmail(b)
  {
    hide NormalizeEmail, Blank, SameLetters;
    var s, t :| Surrounds(a, s) && Surrounds(b, t) && SameLetters(s, t);
    var before, after :| Blank(before) && Blank(after) && a == before + s + after;
    var before', after' :| Blank(before') && Blank(after') && b == before' + t + after';
    SpacesDoNotMatter(before, s, after);
    SpacesDoNotMatter(before', t, after');
    SameLettersLower(s, t);
    CaseDoesNotMatter(s);
    CaseDoesNotMatter(t);
  }

  // ------------------------------------------------------- a domain, by position

  /** The labels of a domain, without cutting it up: every character is a dot or a label character, no dot and no
      hyphen stands at an edge it must not, and no 64 characters in a row are without a dot. */
  predicate DomainOk(d: string) {
    && d != []
    && (forall i | 0 <= i < |d| :: IsLabel(d[i]) || d[i] == '.')
    && (forall i | 0 <= i < |d| && !IsAlphanumeric(d[i]) :: !AtEdge(d, i))
    && (forall i | 0 <= i <= |d| - 64 :: HasDot(d, i))
  }

  /** The position starts or ends the text or a label. */
  predicate AtEdge(d: string, i: int) {
    i <= 0 || i >= |d| - 1 || d[i - 1] == '.' || d[i + 1] == '.'
  }

  predicate HasDot(d: string, i: nat) {
    exists j :: i <= j < i + 64 && j < |d| && d[j] == '.'
  }

  lemma EdgesAreAlphanumeric(d: string, i: nat)
    requires DomainOk(d) && i < |d| && AtEdge(d, i)
    ensures IsAlphanumeric(d[i])
  {
  }

  lemma OneLabel(d: string)
    requires '.' !in d
    ensures LabelOk(d) <==> DomainOk(d)
  {
    assert !HasDot(d, 0);
    if DomainOk(d) {
      EdgesAreAlphanumeric(d, 0);
      EdgesAreAlphanumeric(d, |d| - 1);
    }
  }

  lemma FirstLabelOk(l: string, rest: string)
    requires '.' !in l && DomainOk(l + "." + rest)
    ensures LabelOk(l) && DomainOk(rest)
  {
    var d := l + "." + rest;
    assert d[|l|] == '.' && !AtEdge(d, |l|);
    assert forall i | 0 <= i < |l| :: d[i] == l[i] && l[i] != '.';
    EdgesAreAlphanumeric(d, 0);
    EdgesAreAlphanumeric(d, |l| - 1);
    assert |d| >= 64 ==> HasDot(d, 0);
    if HasDot(d, 0) {
      var j :| 0 <= j < 64 && j < |d| && d[j] == '.';
      assert |l| <= j;
    }
    RestIsDomain(l, rest);
  }

  lemma RestIsDomain(l: string, rest: string)
    requires rest != [] && DomainOk(l + "." + rest)
    ensures DomainOk(rest)
  {
    var d, k := l + "." + rest, |l| + 1;
    assert d[|l|] == '.';
    assert forall i | 0 <= i < |rest| :: d[k + i] == rest[i];
    forall i | 0 <= i < |rest| && !IsAlphanumeric(rest[i]) ensures !AtEdge(rest, i) { assert !AtEdge(d, k + i); }
    forall i | 0 <= i <= |rest| - 64 ensures HasDot(rest, i) {
      assert HasDot(d, k + i);
      var j :| k + i <= j < k + i + 64 && j < |d| && d[j] == '.';
      assert rest[j - k] == '.';
    }
  }

  lemma JoinedIsDomain(l: string, rest: string)
    requires LabelOk(l) && DomainOk(rest)
    ensures DomainOk(l + "." + rest)
  {
    var d, k := l + "." + rest, |l| + 1;
    assert forall i | 0 <= i < |l| :: d[i] == l[i];
    assert d[|l|] == '.';
    assert forall i | 0 <= i < |rest| :: d[k + i] == rest[i];
    EdgesAreAlphanumeric(rest, 0);
    forall i | 0 <= i < |d| && !IsAlphanumeric(d[i]) ensures !AtEdge(d, i) {
      if i >= k { assert !AtEdge(rest, i - k); }
    }
    forall i | 0 <= i <= |d| - 64 ensures HasDot(d, i) {
      if i <= |l| {
        assert i <= |l| < i + 64 && d[|l|] == '.';
      } else {
        assert HasDot(rest, i - k);
        var j :| i - k <= j < i - k + 64 && j < |rest| && rest[j] == '.';
        assert d[k + j] == '.';
      }
    }
  }

  /** The label-by-label check of a domain means exactly that. */
  lemma {:induction false} LabelsMeanDomain(d: string)
    ensures LabelsOk(Labels(d)) <==> DomainOk(d)
    decreases |d|
  {
    hide LabelOk, DomainOk;
    var k := Find(d, '.');
    if k == |d| {
      OneLabel(d);
      LabelsCons(d, []);
    } else {
      var l, rest := d[..k], d[k + 1..];
      assert d == l + "." + rest;
      LabelsMeanDomain(rest);
      LabelsCons(l, Labels(rest));
      if DomainOk(d) { FirstLabelOk(l, rest); }
      if LabelOk(l) && DomainOk(rest) { JoinedIsDomain(l, rest); }
    }
  }

  // ---------------------------------------------------------- what is accepted

  /** The blanks that are trimmed, by code point. */
  predicate IsBlank(c: char) {
    c as int in {0x9, 0xA, 0xB, 0xC, 0xD, 0x20, 0x85, 0xA0, 0x1680, 0x2028, 0x2029, 0x202F, 0x205F, 0x3000} ||
    0x2000 <= c as int <= 0x200A
  }

  /** A digit, an upper or a lower case ASCII letter, by code point. */
  predicate LetterOrDigit(c: char) {
    0x30 <= c as int <= 0x39 || 0x41 <= c as int <= 0x5A || 0x61 <= c as int <= 0x7A
  }

  /** At least one letter, digit, underscore, percent sign, plus or hyphen. */
  predicate Atom(part: string) {
    part != [] && forall i | 0 <= i < |part| ::
      LetterOrDigit(part[i]) || part[i] == '_' || part[i] == '%' || part[i] == '+' || part[i] == '-'
  }

  /** Up to 63 letters, digits and hyphens, at least one, with no hyphen at either end. */
  predicate HostLabel(part: string) {
    1 <= |part| <= 63 && LetterOrDigit(part[0]) && LetterOrDigit(part[|part| - 1]) &&
    forall i | 0 <= i < |part| :: LetterOrDigit(part[i]) || part[i] == '-'
  }

  predicate Atoms(parts: seq<string>) {
    forall n | 0 <= n < |parts| :: Atom(parts[n])
  }

  predicate HostLabels(parts: seq<string>) {
    forall n | 0 <= n < |parts| :: HostLabel(parts[n])
  }

  /** The text of an address: atoms joined by single dots, an at sign, host labels joined by single dots. */
  predicate Mailbox(local: string, domain: string) {
    |local| <= 64 && |domain| <= 255 && |local| + 1 + |domain| <= 320 &&
    Atoms(Labels(local)) && HostLabels(Labels(domain))
  }

  /** The text is blanks, such an address, and blanks. */
  ghost predicate Holds(value: string, local: string, domain: string) {
    exists before, after ::
      value == before + (local + "@" + domain) + after &&
      (forall i | 0 <= i < |before| :: IsBlank(before[i])) && (forall i | 0 <= i < |after| :: IsBlank(after[i]))
  }

  predicate LocalShape(l: string) {
    l != [] && l[0] != '.' && l[|l| - 1] != '.' && !HasDoubleDot(l) && forall i | 0 <= i < |l| :: IsLocal(l[i])
  }

  lemma OneAtom(l: string)
    requires '.' !in l
    ensures Atom(l) <==> LocalShape(l)
  {
  }

  lemma AtomAhead(l: string, rest: string)
    requires '.' !in l && LocalShape(l + "." + rest)
    ensures Atom(l) && LocalShape(rest)
  {
    var d, k := l + "." + rest, |l| + 1;
    assert d[|l|] == '.' && !(d[|l|] == '.' && rest != [] && d[k] == '.');
    assert forall i | 0 <= i < |l| :: d[i] == l[i] && l[i] != '.';
    assert forall i | 0 <= i < |rest| :: d[k + i] == rest[i];
    forall i | 0 <= i < |rest| - 1 ensures !(rest[i] == '.' && rest[i + 1] == '.') {
      assert !(d[k + i] == '.' && d[k + i + 1] == '.');
    }
  }

  lemma AtomBefore(l: string, rest: string)
    requires Atom(l) && LocalShape(rest)
    ensures LocalShape(l + "." + rest)
  {
    var d, k := l + "." + rest, |l| + 1;
    assert d[|l|] == '.';
    assert forall i | 0 <= i < |l| :: d[i] == l[i] && d[i] != '.' && IsLocal(d[i]);
    assert forall i | 0 <= i < |rest| :: d[k + i] == rest[i];
    forall i | 0 <= i < |d| - 1 ensures !(d[i] == '.' && d[i + 1] == '.') {
      if i >= k { assert !(rest[i - k] == '.' && rest[i - k + 1] == '.'); }
    }
  }

  lemma {:induction false} LocalMeansAtoms(l: string)
    ensures Atoms(Labels(l)) <==> LocalShape(l)
    decreases |l|
  {
    hide Atom, LocalShape;
    var k := Find(l, '.');
    if k == |l| {
      OneAtom(l);
      AtomsCons(l, []);
    } else {
      var part, rest := l[..k], l[k + 1..];
      assert l == part + "." + rest;
      LocalMeansAtoms(rest);
      AtomsCons(part, Labels(rest));
      if LocalShape(l) { AtomAhead(part, rest); }
      if Atom(part) && LocalShape(rest) { AtomBefore(part, rest); }
    }
  }

  lemma AtomsCons(part: string, parts: seq<string>)
    ensures Atoms([part] + parts) <==> Atom(part) && Atoms(parts)
  {
    hide Atom;
    assert ([part] + parts)[0] == part;
    assert forall n | 0 <= n < |parts| :: ([part] + parts)[n + 1] == parts[n];
  }

  lemma HostLabelsAreLabels(parts: seq<string>)
    ensures HostLabels(parts) <==> LabelsOk(parts)
  {
    forall n | 0 <= n < |parts| ensures HostLabel(parts[n]) <==> LabelOk(parts[n]) {
    }
  }

  /** Nothing is trimmed from a text without blanks at its ends. */
  lemma SolidStays(s: string)
    requires s != [] && !IsSpace(s[0]) && !IsSpace(s[|s| - 1])
    ensures Trim(s) == s
  {
  }

  lemma {:induction false} FindBehind(before: string, c: char, rest: string)
    requires c !in before
    ensures Find(before + [c] + rest, c) == |before|
  {
    var s := before + [c] + rest;
    assert s[|before|] == c && forall i | 0 <= i < |before| :: s[i] == before[i] != c;
  }

  lemma LocalCharacters(local: string, i: nat)
    requires LocalShape(local) && i < |local|
    ensures IsAscii(local[i]) && !IsSpace(local[i]) && local[i] != '@'
  {
  }

  lemma DomainCharacters(domain: string, i: nat)
    requires DomainOk(domain) && i < |domain|
    ensures IsAscii(domain[i]) && !IsSpace(domain[i]) && domain[i] != '@'
  {
  }

  /** The shape of both parts in the terms of `normalize_email`. */
  lemma MailboxParts(local: string, domain: string)
    ensures Mailbox(local, domain) <==>
      |local| <= 64 && |domain| <= 255 && |local| + 1 + |domain| <= 320 && LocalOk(local) && LabelsOk(Labels(domain))
  {
    hide Labels, HostLabels, LabelsOk, Atoms, HasDoubleDot, IsLocal;
    LocalMeansAtoms(local);
    HostLabelsAreLabels(Labels(domain));
  }

  lemma MailboxShapes(local: string, domain: string)
    requires Mailbox(local, domain)
    ensures LocalShape(local) && DomainOk(domain) && local != [] && domain != []
  {
    hide Labels, HostLabels, LabelsOk, Atoms;
    LocalMeansAtoms(local);
    HostLabelsAreLabels(Labels(domain));
    LabelsMeanDomain(domain);
  }

  lemma MailboxCharacters(local: string, domain: string)
    requires Mailbox(local, domain)
    ensures local != [] && domain != [] && '@' !in local && '@' !in domain
    ensures forall i | 0 <= i < |local| + 1 + |domain| ::
      IsAscii((local + "@" + domain)[i]) && !IsSpace((local + "@" + domain)[i])
  {
    hide Mailbox, LocalShape, DomainOk, IsAscii, IsSpace;
    MailboxShapes(local, domain);
    var s := local + "@" + domain;
    forall i | 0 <= i < |local| ensures IsAscii(local[i]) && !IsSpace(local[i]) && local[i] != '@' {
      LocalCharacters(local, i);
    }
    forall i | 0 <= i < |domain| ensures IsAscii(domain[i]) && !IsSpace(domain[i]) && domain[i] != '@' {
      DomainCharacters(domain, i);
    }
    forall i | 0 <= i < |s| ensures IsAscii(s[i]) && !IsSpace(s[i]) {
      if i < |local| {
        assert s[i] == local[i];
      } else if i == |local| {
        AtSign();
      } else {
        assert s[i] == domain[i - |local| - 1];
      }
    }
  }

  lemma AtSign()
    ensures IsAscii('@') && !IsSpace('@')
  {
  }

  /** An address by itself is accepted. */
  lemma MailboxIsAccepted(local: string, domain: string)
    requires Mailbox(local, domain)
    ensures NormalizeEmail(local + "@" + domain) == Some(Lowered(local + "@" + domain))
  {
    hide Labels, LabelsOk, LocalOk, Mailbox, Trim, Find, IsAscii, IsSpace, Lowered;
    var s := local + "@" + domain;
    MailboxParts(local, domain);
    MailboxCharacters(local, domain);
    SolidStays(s);
    FindBehind(local, '@', domain);
    assert s[..|local|] == local && s[|local| + 1..] == domain;
  }

  lemma BlanksAreSpaces(s: string)
    ensures Blank(s) <==> forall i | 0 <= i < |s| :: IsBlank(s[i])
  {
    forall i | 0 <= i < |s| ensures IsSpace(s[i]) <==> IsBlank(s[i]) {
    }
  }

  /** The same text but for upper case ASCII letters, which are 32 code points further. */
  predicate IsLowerCaseOf(r: string, s: string) {
    |r| == |s| && forall i | 0 <= i < |s| ::
      r[i] as int == s[i] as int + (if 0x41 <= s[i] as int <= 0x5A then 32 else 0)
  }

  /** What `normalize_email` makes of a text: an address with blanks around it becomes that address in lower case, */
  lemma AddressIsAccepted(value: string, local: string, domain: string)
    requires Holds(value, local, domain) && Mailbox(local, domain)
    ensures NormalizeEmail(value).Some? && IsLowerCaseOf(NormalizeEmail(value).value, local + "@" + domain)
  {
    hide NormalizeEmail, Mailbox, Blank, IsBlank;
    var before, after :| value == before + (local + "@" + domain) + after &&
      (forall i | 0 <= i < |before| :: IsBlank(before[i])) && (forall i | 0 <= i < |after| :: IsBlank(after[i]));
    BlanksAreSpaces(before);
    BlanksAreSpaces(after);
    MailboxIsAccepted(local, domain);
    SpacesDoNotMatter(before, local + "@" + domain, after);
  }

  /** ... and nothing else is accepted. */
  lemma AcceptedIsAddress(value: string)
    requires NormalizeEmail(value).Some?
    ensures exists local, domain :: Holds(value, local, domain) && Mailbox(local, domain)
  {
    hide Labels, LabelsOk, LocalOk, Mailbox, Trim, IsAscii, Blank, IsBlank, Lowered;
    var s := Trim(value);
    var at := Find(s, '@');
    var local, domain := s[..at], s[at + 1..];
    assert s == local + "@" + domain;
    MailboxParts(local, domain);
    LocalIsShort(local);
    TrimIsSurrounded(value);
    var before, after :| Blank(before) && Blank(after) && value == before + s + after;
    BlanksAreSpaces(before);
    BlanksAreSpaces(after);
    assert Holds(value, local, domain);
  }

  lemma LocalIsShort(local: string)
    requires LocalOk(local)
    ensures |local| <= 64
  {
  }

  /** So a text is accepted if and only if it is an address with blanks around it. */
  lemma AcceptsAddresses(value: string)
    ensures NormalizeEmail(value).Some? <==>
      exists local, domain :: Holds(value, local, domain) && Mailbox(local, domain)
  {
    hide NormalizeEmail, Holds, Mailbox;
    if NormalizeEmail(value).Some? { AcceptedIsAddress(value); }
    if local, domain :| Holds(value, local, domain) && Mailbox(local, domain) {
      AddressIsAccepted(value, local, domain);
    }
  }

  // ------------------------------------------------------------------ lock key

  /** `valid_opaque_id`. */
  predicate ValidOpaqueId(value: string, maximum: nat) {
    1 <= |value| <= maximum && forall i | 0 <= i < |value| :: IsAlphanumeric(value[i]) || value[i] in "._-:/"
  }

  const SEPARATOR := '\U{1F}'

  function LockKey(organization: string, email: string): string {
    organization + [SEPARATOR] + email
  }

  /** No control character survives normalisation. */
  lemma NormalFormsAreText(value: string)
    requires NormalizeEmail(value).Some?
    ensures SEPARATOR !in NormalizeEmail(value).value
  {
    hide LabelsOk, Labels, DomainOk;
    var s := Trim(value);
    var at := Find(s, '@');
    LabelsMeanDomain(s[at + 1..]);
    forall i | 0 <= i < |s| ensures Lowered(s)[i] != SEPARATOR {
      LowerKeepsClasses(s[i]);
      if i < at {
        assert IsLocal(s[..at][i]);
      } else if i > at {
        DomainCharacter(s[at + 1..], i - at - 1);
      }
    }
  }

  lemma DomainCharacter(d: string, i: nat)
    requires DomainOk(d) && i < |d|
    ensures IsLabel(d[i]) || d[i] == '.'
  {
  }

  lemma SeparatorComesAfter(organization: string, email: string, maximum: nat)
    requires ValidOpaqueId(organization, maximum)
    ensures var key := LockKey(organization, email);
      && key[|organization|] == SEPARATOR && (forall i | 0 <= i < |organization| :: key[i] != SEPARATOR)
      && organization == key[..|organization|] && email == key[|organization| + 1..]
  {
    assert forall i | 0 <= i < |organization| :: LockKey(organization, email)[i] == organization[i];
  }

  /** On validated organizations the lock key names one organization and one address. */
  lemma LockKeyIsInjective(o: string, e: string, o': string, e': string, maximum: nat)
    requires ValidOpaqueId(o, maximum) && ValidOpaqueId(o', maximum)
    ensures LockKey(o, e) == LockKey(o', e') <==> o == o' && e == e'
  {
    hide LockKey, ValidOpaqueId;
    SeparatorComesAfter(o, e, maximum);
    SeparatorComesAfter(o', e', maximum);
  }
}
