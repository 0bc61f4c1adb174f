/** `generatePlateNumbers` (src/utils/generatePlateNumbers.ts): every plate `CAT-dddd`
    whose four-digit number, from 0896 to 9999, contains no digit 4. */
module GeneratePlateNumbers {
  import opened Decimal

  /** The loop bounds the code uses (its doc comment claims CAT-00001..CAT-99999). */
  const First := 896
  const Last := 9999

  const Prefix: string := "CAT-"

  /** The plate for number `i`: the prefix and `i` zero-padded to four digits. */
  function Plate(i: nat): string {
    Prefix + ZeroPad(i, 4)
  }

  predicate Excluded(i: nat) {
    '4' in ZeroPad(i, 4)
  }

  predicate WellFormed(p: string) {
    |p| == 8 && p[..4] == Prefix && AllDigits(p[4..])
  }

  /** The number a well-formed plate carries. */
  function PlateNumber(p: string): nat
    requires WellFormed(p)
  {
    DecimalValue(p[4..])
  }

  /** The numbers `lo`, `lo + 1`, ..., `hi - 1`. */
  function Range(lo: nat, hi: nat): (r: seq<nat>)
    ensures |r| == if lo <= hi then hi - lo else 0
    ensures forall k :: 0 <= k < |r| ==> r[k] == lo + k
  {
    if lo <= hi then seq(hi - lo, k requires 0 <= k < hi - lo => lo + k) else []
  }

  /** The numbers of `ns` whose padded form has no '4', in their order. */
  function KeepAllowed(ns: seq<nat>): seq<nat>
  {
    if ns == [] then []
    else KeepAllowed(ns[..|ns| - 1]) + (if Excluded(ns[|ns| - 1]) then [] else [ns[|ns| - 1]])
  }

  function PlatesOf(ns: seq<nat>): (ps: seq<string>)
    ensures |ps| == |ns|
    ensures forall k :: 0 <= k < |ns| ==> ps[k] == Plate(ns[k])
  {
    seq(|ns|, k requires 0 <= k < |ns| => Plate(ns[k]))
  }

  /** The list `generatePlateNumbers` returns: the plates of the numbers of
      896..9999 that have no '4', in increasing order. */
  function AllPlates(): seq<string> {
    PlatesOf(KeepAllowed(Range(First, Last + 1)))
  }

  method GeneratePlateNumbers() returns (plates: seq<string>)
    ensures plates == AllPlates()
  {
    plates := [];
    for i := First to Last + 1
      invariant plates == PlatesOf(KeepAllowed(Range(First, i)))
    {
      KeepStep(First, i);
      var numStr := ZeroPad(i, 4);
      if '4' in numStr {
        continue;
      }
      PlatesAppend(KeepAllowed(Range(First, i)), i);
      plates := plates + [Prefix + numStr];
    }
  }

  /** One more number at the top of the range is kept exactly when it has no '4'. */
  lemma KeepStep(lo: nat, i: nat)
    requires lo <= i
    ensures KeepAllowed(Range(lo, i + 1)) == KeepAllowed(Range(lo, i)) + if Excluded(i) then [] else [i]
  {
    var r := Range(lo, i + 1);
    assert r[..|r| - 1] == Range(lo, i);
  }

  lemma PlatesAppend(ns: seq<nat>, n: nat)
    ensures PlatesOf(ns + [n]) == PlatesOf(ns) + [Plate(n)]
  {
  }

  /** A range that starts with an allowed number keeps it in front. */
  lemma {:induction false} KeepFirst(lo: nat, hi: nat)
    requires lo < hi && !Excluded(lo)
    ensures |KeepAllowed(Range(lo, hi))| > 0 && KeepAllowed(Range(lo, hi))[0] == lo
  {
    KeepStep(lo, hi - 1);
    if hi - 1 == lo {
      assert Range(lo, lo) == [];
    } else {
      KeepFirst(lo, hi - 1);
    }
  }

  /** Filtering keeps only allowed members of the input. */
  lemma {:induction false} KeptAreAllowed(ns: seq<nat>)
    ensures forall k :: 0 <= k < |KeepAllowed(ns)| ==>
      KeepAllowed(ns)[k] in ns && !Excluded(KeepAllowed(ns)[k])
  {
    if ns != [] {
      var init := ns[..|ns| - 1];
      KeptAreAllowed(init);
      forall k | 0 <= k < |KeepAllowed(ns)|
        ensures KeepAllowed(ns)[k] in ns && !Excluded(KeepAllowed(ns)[k])
      {
        if k < |KeepAllowed(init)| {
          assert KeepAllowed(ns)[k] == KeepAllowed(init)[k];
          assert KeepAllowed(init)[k] in init;
        }
      }
    }
  }

  /** Filtering keeps every allowed member of the input. */
  lemma {:induction false} AllowedAreKept(ns: seq<nat>, n: nat)
    requires n in ns && !Excluded(n)
    ensures n in KeepAllowed(ns)
  {
    var init := ns[..|ns| - 1];
    if n != ns[|ns| - 1] {
      assert ns == init + [ns[|ns| - 1]];
      AllowedAreKept(init, n);
    }
  }

  /** Filtering a strictly increasing sequence leaves it strictly increasing. */
  lemma {:induction false} KeptIncreasing(ns: seq<nat>)
    requires forall j, k :: 0 <= j < k < |ns| ==> ns[j] < ns[k]
    ensures forall j, k :: 0 <= j < k < |KeepAllowed(ns)| ==> KeepAllowed(ns)[j] < KeepAllowed(ns)[k]
  {
    if ns != [] {
      var init, last := ns[..|ns| - 1], ns[|ns| - 1];
      KeptIncreasing(init);
      KeptAreAllowed(init);
      var r, p := KeepAllowed(ns), KeepAllowed(init);
      forall j, k | 0 <= j < k < |r|
        ensures r[j] < r[k]
      {
        assert r[j] == p[j];
        if k < |p| {
          assert r[k] == p[k];
        } else {
          assert r[k] == last;
          assert p[j] in init;
        }
      }
    }
  }

  /** The list, gathered: every entry is `CAT-` and four digits without a '4' and
      carries a number of 896..9999; every such number without a '4' has its plate in
      the list; entries strictly increase by number, so each appears exactly once. */
  lemma GeneratedPlates()
    ensures forall k :: 0 <= k < |AllPlates()| ==>
      && WellFormed(AllPlates()[k]) && '4' !in AllPlates()[k][4..]
      && First <= PlateNumber(AllPlates()[k]) <= Last
    ensures forall n :: First <= n <= Last && !Excluded(n) ==> Plate(n) in AllPlates()
    ensures forall j, k :: 0 <= j < k < |AllPlates()| ==>
      PlateNumber(AllPlates()[j]) < PlateNumber(AllPlates()[k])
  {
    EntriesReadBack();
    AllowedPresent();
    KeptIncreasing(Range(First, Last + 1));
  }

  lemma EntriesReadBack()
    ensures forall k :: 0 <= k < |AllPlates()| ==>
      && WellFormed(AllPlates()[k]) && '4' !in AllPlates()[k][4..]
      && PlateNumber(AllPlates()[k]) == KeepAllowed(Range(First, Last + 1))[k]
      && First <= PlateNumber(AllPlates()[k]) <= Last
  {
    var range := Range(First, Last + 1);
    var ns := KeepAllowed(range);
    var ps := AllPlates();
    KeptAreAllowed(range);
    forall k | 0 <= k < |ps|
      ensures WellFormed(ps[k]) && PlateNumber(ps[k]) == ns[k] && First <= ns[k] <= Last
      ensures '4' !in ps[k][4..]
    {
      assert ns[k] in range;
      PlateReadsBack(ns[k]);
      assert ps[k][4..] == ZeroPad(ns[k], 4);
    }
  }

  lemma AllowedPresent()
    ensures forall n :: First <= n <= Last && !Excluded(n) ==> Plate(n) in AllPlates()
  {
    var range := Range(First, Last + 1);
    var ns := KeepAllowed(range);
    var ps := AllPlates();
    forall n | First <= n <= Last && !Excluded(n)
      ensures Plate(n) in ps
    {
      assert range[n - First] == n;
      AllowedAreKept(range, n);
      var k :| 0 <= k < |ns| && ns[k] == n;
      assert ps[k] == Plate(n);
    }
  }

  /** 896 has no '4', so the list starts with `CAT-0896`. */
  lemma FirstPlate()
    ensures |AllPlates()| > 0 && AllPlates()[0] == "CAT-0896"
  {
    FirstPlateDigits();
    KeepFirst(First, Last + 1);
  }

  /** A plate for a four-digit number is well formed and carries that number. */
  lemma PlateReadsBack(i: nat)
    requires i <= Last
    ensures WellFormed(Plate(i)) && PlateNumber(Plate(i)) == i
  {
    assert Pow10(4) == 10000;
    ZeroPadWidth(i, 4);
    ZeroPadValue(i, 4);
    assert Plate(i)[4..] == ZeroPad(i, 4);
  }

  /** 896 is padded with a leading zero, as `CAT-0896`, and so is kept. */
  lemma FirstPlateDigits()
    ensures ZeroPad(First, 4) == "0896" && !Excluded(First)
    ensures Plate(First) == "CAT-0896"
  {
    assert NatToString(8) == "8";
    assert NatToString(89) == "89";
    assert NatToString(896) == "896";
  }
}
