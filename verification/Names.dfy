/** The names the appliance advertises over mDNS: kept distinct as DNS compares names, and within one label. */
module Names {
  import opened Common
  import Utf8

  /** The longest DNS label (section 2.3.4 of RFC 1035), less room for the responder's own " (101)". */
  const LABEL_MAX: int := 63
  const NAME_BUDGET: int := LABEL_MAX - 6

  const SPACE: byte := 0x20
  const HASH: byte := 0x23

  function Lower(b: byte): byte { if 0x41 <= b <= 0x5A then b + 0x20 else b }

  /** Folds ASCII letters, as DNS compares names (RFC 4343). Bytes that encode nothing fold to U+FFFD. */
  function AsciiLower(s: seq<byte>): seq<byte> {
    if s == [] then [] else Folded(s) + AsciiLower(s[Taken(s)..])
  }

  /** How many bytes are folded at once, and what they fold to. */
  function Taken(s: seq<byte>): (n: nat)
    requires s != []
    ensures 1 <= n <= |s|
  {
    if Utf8.Whole(s) then Utf8.Need(s[0]) else 1
  }

  function Folded(s: seq<byte>): seq<byte>
    requires s != []
  {
    if Utf8.Whole(s) then [Lower(s[0])] + s[1..Taken(s)] else [0xEF, 0xBF, 0xBD]
  }

  /** An ASCII capital as its small letter, and any other code point as itself. */
  function Small(cp: int): int { if 'A' as int <= cp <= 'Z' as int then cp + 32 else cp }

  lemma LowersFirst(cp: int)
    requires Utf8.Scalar(cp)
    ensures var e := Utf8.Encode(cp); [Lower(e[0])] + e[1..] == Utf8.Encode(Small(cp))
  {
    var e := Utf8.Encode(cp);
    assert e == [e[0]] + e[1..];
  }

  /** Folding goes code point by code point. */
  lemma FoldsRune(cp: int, rest: seq<byte>)
    requires Utf8.Scalar(cp)
    ensures AsciiLower(Utf8.Encode(cp) + rest) == Utf8.Encode(Small(cp)) + AsciiLower(rest)
  {
    hide Utf8.Whole, Utf8.Need, Utf8.Encode, Lower;
    var e := Utf8.Encode(cp);
    var s := e + rest;
    Utf8.EncodesWhole(cp, s);
    LowersFirst(cp);
    assert Taken(s) == |e| && s[|e|..] == rest && s[1..|e|] == e[1..] && s[0] == e[0];
  }

  /** A byte that begins no encoding folds to that of U+FFFD. */
  lemma FoldsToReplacement(s: seq<byte>)
    requires s != [] && !exists cp :: Utf8.Scalar(cp) && Utf8.Encode(cp) <= s
    ensures AsciiLower(s) == Utf8.Encode(0xFFFD) + AsciiLower(s[1..])
  {
    hide Utf8.Whole, Utf8.Need;
    Utf8.WholeExactly(s);
  }

  lemma FoldStep(x: seq<byte>, a: seq<byte>)
    requires x != [] && (a == [] || Utf8.RuneStart(a[0]))
    ensures Taken(x + a) == Taken(x) && Folded(x + a) == Folded(x) && (x + a)[Taken(x)..] == x[Taken(x)..] + a
  {
    hide Utf8.Whole, Utf8.Need, Lower;
    Utf8.WholeBefore(x, a);
    var n := Taken(x);
    assert (x + a)[0] == x[0] && (x + a)[1..n] == x[1..n];
  }

  /** Two bytes that differ in nothing but the case of an ASCII letter. */
  predicate SameLetter(a: byte, b: byte) {
    a == b || ('A' as int <= a <= 'Z' as int && b == a + 32) || ('A' as int <= b <= 'Z' as int && a == b + 32)
  }

  lemma OneFolded(s: seq<byte>)
    requires Utf8.Whole(s)
    ensures |Folded(s)| == Taken(s) && forall i | 0 <= i < Taken(s) :: Folded(s)[i] == Lower(s[i])
  {
    hide Utf8.Need;
    forall k | 1 <= k < Taken(s) ensures Lower(s[k]) == s[k] { assert Utf8.Continues(s[k]); }
  }

  /** A valid name is folded byte by byte: only its ASCII letters change. */
  lemma {:induction false} FoldsBytewise(s: seq<byte>)
    requires Utf8.Valid(s)
    ensures |AsciiLower(s)| == |s| && forall i | 0 <= i < |s| :: AsciiLower(s)[i] == Lower(s[i])
  {
    hide Folded, Lower, Utf8.Whole, Utf8.Need;
    if s != [] {
      var n := Taken(s);
      OneFolded(s);
      FoldsBytewise(s[n..]);
    }
  }

  /** Two names are taken for one exactly if they differ in nothing but the case of their ASCII letters. */
  lemma FoldsAlikeExactly(s: seq<byte>, t: seq<byte>)
    requires Utf8.Valid(s) && Utf8.Valid(t)
    ensures AsciiLower(s) == AsciiLower(t) <==> |s| == |t| && forall i | 0 <= i < |s| :: SameLetter(s[i], t[i])
  {
    hide AsciiLower, Utf8.Valid;
    FoldsBytewise(s);
    FoldsBytewise(t);
    if AsciiLower(s) == AsciiLower(t) {
      forall i | 0 <= i < |s| ensures SameLetter(s[i], t[i]) { assert AsciiLower(s)[i] == AsciiLower(t)[i]; }
    }
  }

  lemma {:induction false} FoldJoins(x: seq<byte>, a: seq<byte>)
    requires a == [] || Utf8.RuneStart(a[0])
    ensures AsciiLower(x + a) == AsciiLower(x) + AsciiLower(a)
  {
    hide Folded;
    if x == [] {
      assert x + a == a;
    } else {
      var n := Taken(x);
      FoldStep(x, a);
      FoldJoins(x[n..], a);
      assert AsciiLower(x + a) == Folded(x) + (AsciiLower(x[n..]) + AsciiLower(a));
    }
  }

  // ----- cutting a name -----

  function TrimRight(s: seq<byte>): seq<byte> {
    if s != [] && s[|s| - 1] == SPACE then TrimRight(s[..|s| - 1]) else s
  }

  function TrimLeft(s: seq<byte>): seq<byte> {
    if s != [] && s[0] == SPACE then TrimLeft(s[1..]) else s
  }

  /** The last rune start at or before cut, or 0. */
  function Boundary(s: seq<byte>, cut: nat): (b: nat)
    requires cut == 0 || cut < |s|
    ensures b <= cut
  {
    if cut > 0 && !Utf8.RuneStart(s[cut]) then Boundary(s, cut - 1) else cut
  }

  function Cut(s: seq<byte>, n: int): seq<byte> {
    if |s| <= n then s else TrimRight(s[..Boundary(s, Max(n, 0))])
  }

  method CutName(s: seq<byte>, n: int) returns (r: seq<byte>)
    ensures r == Cut(s, n)
  {
    if |s| <= n { return s; }
    var cut := Max(n, 0);
    while cut > 0 && !Utf8.RuneStart(s[cut])
      invariant 0 <= cut && (cut == 0 || cut < |s|) && Boundary(s, cut) == Boundary(s, Max(n, 0))
    {
      cut := cut - 1;
    }
    r := s[..cut];
    while r != [] && r[|r| - 1] == SPACE
      invariant TrimRight(r) == TrimRight(s[..cut])
    {
      r := r[..|r| - 1];
    }
  }

  lemma {:induction false} BoundaryIsLast(s: seq<byte>, cut: nat)
    requires cut == 0 || cut < |s|
    ensures Boundary(s, cut) <= cut && (Boundary(s, cut) == 0 || Utf8.RuneStart(s[Boundary(s, cut)]))
    ensures forall k | Boundary(s, cut) < k <= cut :: !Utf8.RuneStart(s[k])
  {
    if cut > 0 && !Utf8.RuneStart(s[cut]) { BoundaryIsLast(s, cut - 1); }
  }

  lemma {:induction false} TrimIsPrefix(s: seq<byte>)
    ensures TrimRight(s) <= s && (Utf8.Valid(s) ==> Utf8.Valid(TrimRight(s)))
    ensures forall i | |TrimRight(s)| <= i < |s| :: s[i] == SPACE
    ensures TrimRight(s) != [] ==> TrimRight(s)[|TrimRight(s)| - 1] != SPACE
  {
    if s != [] && s[|s| - 1] == SPACE {
      TrimIsPrefix(s[..|s| - 1]);
      if Utf8.Valid(s) { Utf8.CutAtRuneStart(s, |s| - 1); }
    }
  }

  /** A cut name is a prefix within the limit, cut between runes, with no space left at the cut; and no later
      rune boundary would have fitted. A name that fits is not touched. */
  lemma CutFits(s: seq<byte>, n: int)
    ensures Cut(s, n) <= s && |Cut(s, n)| <= Max(n, 0)
    ensures |s| <= n ==> Cut(s, n) == s
    ensures Utf8.Valid(s) ==> Utf8.Valid(Cut(s, n))
    ensures |s| > n && Cut(s, n) != [] ==> Cut(s, n)[|Cut(s, n)| - 1] != SPACE
    ensures |s| > n ==> exists b: nat | b <= Max(n, 0) ::
              && (b == 0 || Utf8.RuneStart(s[b])) && (forall k | b < k <= Max(n, 0) :: !Utf8.RuneStart(s[k]))
              && |Cut(s, n)| <= b && forall i | |Cut(s, n)| <= i < b :: s[i] == SPACE
  {
    hide Boundary, TrimRight, Utf8.RuneStart, Utf8.Valid;
    if |s| > n {
      var b := Boundary(s, Max(n, 0));
      BoundaryIsLast(s, Max(n, 0));
      TrimIsPrefix(s[..b]);
      assert forall i | |Cut(s, n)| <= i < b :: s[..b][i] == SPACE && s[..b][i] == s[i];
      if Utf8.Valid(s) { Utf8.CutAtRuneStart(s, b); }
    }
  }

  // ----- the label of one stream -----

  function InstanceLabel(name: seq<byte>, suffix: seq<byte>): seq<byte> {
    var head := Cut(name, NAME_BUDGET - |suffix|);
    Cut(head + (if head == [] then TrimLeft(suffix) else suffix), NAME_BUDGET)
  }

  lemma {:induction false} TrimLeftIsSuffix(s: seq<byte>)
    ensures |TrimLeft(s)| <= |s| && s[|s| - |TrimLeft(s)|..] == TrimLeft(s)
    ensures forall i | 0 <= i < |s| - |TrimLeft(s)| :: s[i] == SPACE
    ensures TrimLeft(s) != [] ==> TrimLeft(s)[0] != SPACE
    ensures Utf8.Valid(s) ==> Utf8.Valid(TrimLeft(s))
  {
    if s != [] && s[0] == SPACE { TrimLeftIsSuffix(s[1..]); }
  }

  /** A label fits the budget, is cut only between runes, and keeps the whole suffix, which tells a device's
      streams apart: only a suffix that alone exceeds the budget is cut, and one left without a name loses its
      leading spaces. A non-empty name that fits with its suffix is kept whole. */
  lemma LabelFits(name: seq<byte>, suffix: seq<byte>)
    ensures var r := InstanceLabel(name, suffix);
            && |r| <= NAME_BUDGET
            && (Utf8.Valid(name) && Utf8.Valid(suffix) ==> Utf8.Valid(r))
            && (name != [] && |name| + |suffix| <= NAME_BUDGET ==> r == name + suffix)
            && (|suffix| <= NAME_BUDGET ==> r == TrimLeft(suffix) || (|suffix| <= |r| && r[|r| - |suffix|..] == suffix))
  {
    hide Cut, TrimLeft, Utf8.Valid;
    var head := Cut(name, NAME_BUDGET - |suffix|);
    var rest := if head == [] then TrimLeft(suffix) else suffix;
    CutFits(name, NAME_BUDGET - |suffix|);
    TrimLeftIsSuffix(suffix);
    CutFits(head + rest, NAME_BUDGET);
    if Utf8.Valid(name) && Utf8.Valid(suffix) { Utf8.ValidJoins(head, rest); }
  }

  // ----- keeping names distinct -----

  function Digits(n: nat): seq<byte> {
    (if n < 10 then [] else Digits(n / 10)) + [0x30 + n % 10]
  }

  function Suffix(n: nat): seq<byte> { [SPACE, HASH] + Digits(n) }

  /** The name tried for the n-th holder of a name. */
  function Candidate(name: seq<byte>, n: nat): seq<byte> { Cut(name, NAME_BUDGET - |Suffix(n)|) + Suffix(n) }

  predicate AreDigits(s: seq<byte>) { forall i | 0 <= i < |s| :: 0x30 <= s[i] <= 0x39 }

  function Value(s: seq<byte>): int {
    if s == [] then 0 else 10 * Value(s[..|s| - 1]) + s[|s| - 1] as int - 0x30
  }

  lemma {:induction false} DigitsAreDecimal(n: nat)
    ensures AreDigits(Digits(n)) && Value(Digits(n)) == n && |Digits(n)| >= 1
  {
    if n >= 10 { DigitsAreDecimal(n / 10); }
    assert Digits(n)[..|Digits(n)| - 1] == if n < 10 then [] else Digits(n / 10);
  }

  lemma {:induction false} FewDigits(n: nat, k: nat)
    requires n < Power10(k) && k >= 1
    ensures |Digits(n)| <= k
  {
    if n >= 10 { FewDigits(n / 10, k - 1); }
  }

  function Power10(k: nat): nat { if k == 0 then 1 else 10 * Power10(k - 1) }

  /** What follows the last '#'. */
  function AfterHash(s: seq<byte>): seq<byte> {
    if s == [] || s[|s| - 1] == HASH then [] else AfterHash(s[..|s| - 1]) + [s[|s| - 1]]
  }

  lemma {:induction false} AfterHashOf(x: seq<byte>, d: seq<byte>)
    requires AreDigits(d)
    ensures AfterHash(x + [HASH] + d) == d
  {
    var s := x + [HASH] + d;
    if d != [] {
      AfterHashOf(x, d[..|d| - 1]);
      assert s[..|s| - 1] == x + [HASH] + d[..|d| - 1];
    }
  }

  predicate Caseless(s: seq<byte>) { forall i | 0 <= i < |s| :: s[i] < 0x41 }

  lemma {:induction false} FoldKeeps(s: seq<byte>)
    requires Caseless(s)
    ensures AsciiLower(s) == s
  {
    if s != [] { FoldKeeps(s[1..]); }
  }

  lemma SuffixIsCaseless(n: nat)
    ensures Caseless(Suffix(n)) && Suffix(n) == [SPACE] + [HASH] + Digits(n)
  {
    hide Digits;
    DigitsAreDecimal(n);
  }

  lemma FoldOfCandidate(name: seq<byte>, n: nat)
    ensures exists x :: AsciiLower(Candidate(name, n)) == x + [HASH] + Digits(n)
  {
    hide Cut, AsciiLower, Suffix, Digits, Caseless;
    var head := Cut(name, NAME_BUDGET - |Suffix(n)|);
    SuffixIsCaseless(n);
    FoldKeeps(Suffix(n));
    SuffixStarts(n);
    FoldJoins(head, Suffix(n));
    var x := AsciiLower(head) + [SPACE];
    assert AsciiLower(Candidate(name, n)) == x + [HASH] + Digits(n);
  }

  lemma SuffixStarts(n: nat)
    ensures Suffix(n) != [] && Utf8.RuneStart(Suffix(n)[0])
  {}

  /** Different numbers make different names, however DNS compares them. */
  lemma CandidatesDiffer(name: seq<byte>, n: nat, m: nat)
    requires AsciiLower(Candidate(name, n)) == AsciiLower(Candidate(name, m))
    ensures n == m
  {
    FoldOfCandidate(name, n);
    FoldOfCandidate(name, m);
    var x :| AsciiLower(Candidate(name, n)) == x + [HASH] + Digits(n);
    var y :| AsciiLower(Candidate(name, m)) == y + [HASH] + Digits(m);
    DigitsAreDecimal(n);
    DigitsAreDecimal(m);
    AfterHashOf(x, Digits(n));
    AfterHashOf(y, Digits(m));
  }

  /** The folded candidates numbered 2 up to, and not including, n. */
  ghost function Tried(name: seq<byte>, n: nat): set<seq<byte>>
    requires n >= 2
  {
    if n == 2 then {} else Tried(name, n - 1) + {AsciiLower(Candidate(name, n - 1))}
  }

  lemma {:induction false} TriedAreMany(name: seq<byte>, n: nat)
    requires n >= 2
    ensures |Tried(name, n)| == n - 2
    ensures forall f | f in Tried(name, n) :: exists m | 2 <= m < n :: f == AsciiLower(Candidate(name, m))
  {
    hide Candidate, AsciiLower;
    if n > 2 {
      TriedAreMany(name, n - 1);
      forall m | 2 <= m < n - 1 ensures AsciiLower(Candidate(name, m)) != AsciiLower(Candidate(name, n - 1)) {
        if AsciiLower(Candidate(name, m)) == AsciiLower(Candidate(name, n - 1)) { CandidatesDiffer(name, m, n - 1); }
      }
    }
  }

  lemma {:induction false} SubsetIsSmaller<T>(a: set<T>, b: set<T>)
    requires a <= b
    ensures |a| <= |b|
  {
    if a != {} {
      var x :| x in a;
      SubsetIsSmaller(a - {x}, b - {x});
    }
  }

  /** A name is its info's own, or the candidate of some number. */
  ghost predicate Numbered(own: seq<byte>, name: seq<byte>, most: nat) {
    name == own || exists n: nat | 2 <= n <= most :: name == Candidate(own, n)
  }

  /** No name in use is own, as DNS compares names. */
  ghost predicate Untaken(names: seq<seq<byte>>, own: seq<byte>) {
    forall j | 0 <= j < |names| :: AsciiLower(names[j]) != AsciiLower(own)
  }

  /** The name own is given after the names before it: itself if it is untaken, else its first untaken candidate. */
  ghost predicate FirstUntaken(names: seq<seq<byte>>, own: seq<byte>, name: seq<byte>) {
    if Untaken(names, own) then name == own
    else exists n: nat | 2 <= n :: name == Candidate(own, n) && FirstAt(names, own, n)
  }

  ghost predicate FirstAt(names: seq<seq<byte>>, own: seq<byte>, n: nat) {
    Untaken(names, Candidate(own, n)) && forall m: nat | 2 <= m < n :: !Untaken(names, Candidate(own, m))
  }

  /** The names to advertise, distinct as DNS compares them; a name not taken by an earlier one is kept. The
      loop ends because the candidates all differ and only as many names are taken as there are infos. */
  method DistinctNames(infos: seq<seq<byte>>) returns (names: seq<seq<byte>>)
    ensures |names| == |infos|
    ensures forall i, j | 0 <= i < j < |names| :: AsciiLower(names[i]) != AsciiLower(names[j])
    ensures forall i | 0 <= i < |names| :: Numbered(infos[i], names[i], |infos| + 1)
    ensures forall i | 0 <= i < |names| :: FirstUntaken(names[..i], infos[i], names[i])
  {
    hide AsciiLower, Numbered, Untaken, Candidate, FirstUntaken;
    names := [];
    var taken: set<seq<byte>> := {};
    forall own ensures Untaken(names, own) { NoneTaken(own); }
    for i := 0 to |infos|
      invariant |names| == i && |taken| <= i
      invariant forall own :: Untaken(names, own) <==> AsciiLower(own) !in taken
      invariant forall j, k | 0 <= j < k < i :: AsciiLower(names[j]) != AsciiLower(names[k])
      invariant forall j | 0 <= j < i :: Numbered(infos[j], names[j], |infos| + 1)
      invariant forall j | 0 <= j < i :: FirstUntaken(names[..j], infos[j], names[j])
    {
      var name := FirstFree(infos[i], taken, |infos| + 1);
      IsFirst(names, taken, infos[i], name);
      forall own ensures Untaken(names + [name], own) <==> Untaken(names, own) && AsciiLower(own) != AsciiLower(name) {
        OneMore(names, name, own);
      }
      forall j | 0 <= j < i ensures AsciiLower(names[j]) != AsciiLower(name) { Untaking(names, name, j); }
      forall j | 0 <= j <= i ensures (names + [name])[..j] == names[..j] {}
      assert names[..i] == names;
      taken := taken + {AsciiLower(name)};
      names := names + [name];
    }
  }

  lemma IsFirst(names: seq<seq<byte>>, taken: set<seq<byte>>, own: seq<byte>, name: seq<byte>)
    requires forall x :: Untaken(names, x) <==> AsciiLower(x) !in taken
    requires AsciiLower(name) !in taken && (AsciiLower(own) !in taken ==> name == own)
    requires name != own ==> exists n: nat | 2 <= n :: name == Candidate(own, n) && AllTaken(own, n, taken)
    ensures FirstUntaken(names, own, name)
  {
    hide AsciiLower, Untaken, Candidate;
    if name != own {
      var n: nat :| 2 <= n && name == Candidate(own, n) && AllTaken(own, n, taken);
      assert FirstAt(names, own, n);
    }
  }

  lemma NoneTaken(own: seq<byte>)
    ensures Untaken([], own)
  {}

  lemma OneMore(names: seq<seq<byte>>, name: seq<byte>, own: seq<byte>)
    ensures Untaken(names + [name], own) <==> Untaken(names, own) && AsciiLower(own) != AsciiLower(name)
  {
    hide AsciiLower;
    if Untaken(names + [name], own) {
      assert (names + [name])[|names|] == name;
      forall j | 0 <= j < |names| ensures AsciiLower(names[j]) != AsciiLower(own) {
        assert (names + [name])[j] == names[j];
      }
    }
  }

  lemma Untaking(names: seq<seq<byte>>, name: seq<byte>, j: nat)
    requires j < |names| && Untaken(names, name)
    ensures AsciiLower(names[j]) != AsciiLower(name)
  {
    hide AsciiLower;
  }

  /** Every candidate numbered below n is taken. */
  ghost predicate AllTaken(own: seq<byte>, n: nat, taken: set<seq<byte>>) {
    forall m: nat | 2 <= m < n :: AsciiLower(Candidate(own, m)) in taken
  }

  /** As many names are taken as there are candidates among them. */
  lemma FewTaken(own: seq<byte>, n: nat, taken: set<seq<byte>>)
    requires n >= 2 && AllTaken(own, n, taken)
    ensures n - 2 <= |taken|
  {
    hide AsciiLower, Candidate;
    TriedAreMany(own, n);
    forall f | f in Tried(own, n) ensures f in taken {
      var m: nat :| 2 <= m < n && f == AsciiLower(Candidate(own, m));
    }
    SubsetIsSmaller(Tried(own, n), taken);
  }

  lemma NoneTried(own: seq<byte>, taken: set<seq<byte>>)
    ensures AllTaken(own, 2, taken)
  {}

  lemma MoreTaken(own: seq<byte>, n: nat, taken: set<seq<byte>>)
    requires AllTaken(own, n, taken) && AsciiLower(Candidate(own, n)) in taken
    ensures AllTaken(own, n + 1, taken)
  {
    hide AsciiLower, Candidate;
  }

  method FirstFree(own: seq<byte>, taken: set<seq<byte>>, ghost most: nat) returns (name: seq<byte>)
    requires |taken| + 2 <= most
    ensures AsciiLower(name) !in taken && Numbered(own, name, most)
    ensures AsciiLower(own) !in taken ==> name == own
    ensures name != own ==> exists n: nat | 2 <= n :: name == Candidate(own, n) && AllTaken(own, n, taken)
  {
    hide AsciiLower, Cut, Suffix, AllTaken, Numbered;
    NoneTried(own, taken);
    name := own;
    var n := 2;
    while AsciiLower(name) in taken
      invariant n >= 2 && (n == 2 ==> name == own)
      invariant n > 2 ==> AsciiLower(own) in taken && name == Candidate(own, n - 1)
      invariant AllTaken(own, if n == 2 then 2 else n - 1, taken)
      invariant n - 3 <= |taken|
      decreases |taken| + 3 - n
    {
      if n > 2 { MoreTaken(own, n - 1, taken); }
      FewTaken(own, n, taken);
      var suffix := Suffix(n);
      var head := CutName(own, NAME_BUDGET - |suffix|);
      name := head + suffix;
      n := n + 1;
    }
    IsNumbered(own, name, n, most);
  }

  lemma IsNumbered(own: seq<byte>, name: seq<byte>, n: nat, most: nat)
    requires name == own || (3 <= n <= most + 1 && name == Candidate(own, n - 1))
    ensures Numbered(own, name, most)
  {
    hide Candidate;
  }

  const MAX_INT: nat := 0x7FFF_FFFF_FFFF_FFFF

  /** Labels that fit the budget are advertised under names that fit it, cut only between runes. A Go slice
      holds at most MAX_INT names. */
  lemma AdvertisedFits(own: seq<byte>, name: seq<byte>, most: nat)
    requires Numbered(own, name, most) && most <= MAX_INT + 1 && |own| <= NAME_BUDGET
    ensures |name| <= NAME_BUDGET && (Utf8.Valid(own) ==> Utf8.Valid(name))
  {
    hide Cut, Digits, Utf8.Valid;
    if name != own {
      var n: nat :| 2 <= n <= most && name == Candidate(own, n);
      TenToThe19();
      FewDigits(n, 19);
      CutFits(own, NAME_BUDGET - |Suffix(n)|);
      if Utf8.Valid(own) {
        SuffixIsCaseless(n);
        AsciiIsValid(Suffix(n));
        Utf8.ValidJoins(Cut(own, NAME_BUDGET - |Suffix(n)|), Suffix(n));
      }
    }
  }

  /** The names advertised for a list of streams, each a device name and the suffix that tells its streams apart: they
      are distinct as DNS compares them, each fits the budget and is cut only between runes, and a label no earlier
      name has taken is advertised as it is. */
  method AdvertisedNames(streams: seq<(seq<byte>, seq<byte>)>) returns (names: seq<seq<byte>>)
    ensures |names| == |streams|
    ensures forall i, j | 0 <= i < j < |names| :: AsciiLower(names[i]) != AsciiLower(names[j])
    ensures |streams| <= MAX_INT ==> forall i | 0 <= i < |names| :: |names[i]| <= NAME_BUDGET
    ensures |streams| <= MAX_INT ==> forall i | 0 <= i < |names| ::
              Utf8.Valid(streams[i].0) && Utf8.Valid(streams[i].1) ==> Utf8.Valid(names[i])
    ensures forall i | 0 <= i < |names| ::
              FirstUntaken(names[..i], InstanceLabel(streams[i].0, streams[i].1), names[i])
  {
    hide AsciiLower, Numbered, InstanceLabel, FirstUntaken, Utf8.Valid;
    var labels: seq<seq<byte>> := [];
    for i := 0 to |streams|
      invariant |labels| == i && forall k | 0 <= k < i :: labels[k] == InstanceLabel(streams[k].0, streams[k].1)
    {
      labels := labels + [InstanceLabel(streams[i].0, streams[i].1)];
    }
    names := DistinctNames(labels);
    if |streams| <= MAX_INT {
      forall i | 0 <= i < |names|
        ensures |names[i]| <= NAME_BUDGET
        ensures Utf8.Valid(streams[i].0) && Utf8.Valid(streams[i].1) ==> Utf8.Valid(names[i])
      {
        LabelFits(streams[i].0, streams[i].1);
        AdvertisedFits(labels[i], names[i], |labels| + 1);
      }
    }
  }

  lemma TenToThe19()
    ensures Power10(19) == 10_000_000_000_000_000_000
  {
    assert Power10(10) == 10_000_000_000;
    assert Power10(15) == 1_000_000_000_000_000;
  }

  lemma {:induction false} AsciiIsValid(s: seq<byte>)
    requires forall i | 0 <= i < |s| :: s[i] < 0x80
    ensures Utf8.Valid(s)
  {
    if s != [] { AsciiIsValid(s[1..]); }
  }
}
