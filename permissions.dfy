/** The legacy group bitmask (ingest_observations.py, `update_permissions`
    and its inner `powers_of_two`): SNEx1 packs the groups allowed to see a row
    into one integer, one bit per group, and the ingestion decodes it into the
    SNEx1 group names whose `idcode` is one of the set bits. */
module Permissions {

  /** 2 to the power `k`. */
  function Pow2(k: nat): (r: int)
    ensures r >= 1
  {
    if k == 0 then 1 else 2 * Pow2(k - 1)
  }

  /** `p` is 1, 2, 4, 8, ... */
  predicate IsPowerOfTwo(p: int)
    decreases if p < 0 then 0 else p
  {
    p == 1 || (p >= 2 && p % 2 == 0 && IsPowerOfTwo(p / 2))
  }

  /** Python's `p & num != 0` for a power of two `p` and `num >= 0`: the bit
      that `p` stands for is set in `num`. */
  predicate BitSet(num: int, p: int)
    requires p > 0
  {
    (num / p) % 2 == 1
  }

  /** A group id `g` is selected by the mask `num` when it is one of the
      powers of two into which `num` decomposes. */
  predicate SelectsGroup(num: int, g: int) {
    IsPowerOfTwo(g) && g <= num && BitSet(num, g)
  }

  function Sum(s: seq<int>): int {
    if s == [] then 0 else Sum(s[..|s| - 1]) + s[|s| - 1]
  }

  predicate StrictlyAscending(s: seq<int>) {
    forall a, b :: 0 <= a < b < |s| ==> s[a] < s[b]
  }

  lemma {:induction false} Pow2IsPowerOfTwo(k: nat)
    ensures IsPowerOfTwo(Pow2(k))
  {
    if k > 0 {
      Pow2IsPowerOfTwo(k - 1);
      assert Pow2(k) / 2 == Pow2(k - 1);
    }
  }

  lemma {:induction false} PowerOfTwoIsPow2(p: int) returns (k: nat)
    requires IsPowerOfTwo(p)
    ensures p == Pow2(k)
    decreases if p < 0 then 0 else p
  {
    if p == 1 {
      k := 0;
    } else {
      var k' := PowerOfTwoIsPow2(p / 2);
      k := k' + 1;
    }
  }

  lemma {:induction false} MulAtLeast(a: int, d: int)
    requires a >= 1 && d > 0
    ensures a * d >= d
    decreases a
  {
    if a > 1 {
      MulAtLeast(a - 1, d);
      assert a * d == (a - 1) * d + d;
    }
  }

  /** Uniqueness of Euclidean division. */
  lemma DivModUnique(n: int, d: int, q: int, r: int)
    requires d > 0 && 0 <= r < d && n == q * d + r
    ensures n / d == q && n % d == r
  {
    var q', r' := n / d, n % d;
    assert n == q' * d + r';
    assert 0 <= r' < d;
    if q' > q {
      assert q' * d - q * d == (q' - q) * d;
      MulAtLeast(q' - q, d);
      assert false;
    } else if q' < q {
      assert q * d - q' * d == (q - q') * d;
      MulAtLeast(q - q', d);
      assert false;
    }
  }

  /** The low bits of `num` below `2i` are those below `i`, plus `i` itself
      when that bit is set. */
  lemma ModDouble(num: int, i: int)
    requires num >= 0 && i > 0
    ensures num % (2 * i) == num % i + (if BitSet(num, i) then i else 0)
  {
    var q, r := num / i, num % i;
    var h, b := q / 2, q % 2;
    assert num == q * i + r;
    assert q == 2 * h + b;
    assert num == h * (2 * i) + (b * i + r) by {
      assert q * i == (2 * h + b) * i == h * (2 * i) + b * i;
    }
    assert 0 <= b * i + r < 2 * i;
    DivModUnique(num, 2 * i, h, b * i + r);
  }

  lemma SumAppend(s: seq<int>, x: int)
    ensures Sum(s + [x]) == Sum(s) + x
  {
    assert (s + [x])[..|s|] == s;
  }

  /** Powers of two are at least a factor two apart. */
  lemma {:induction false} PowersApart(p: int, i: int)
    requires IsPowerOfTwo(p) && IsPowerOfTwo(i) && i < p
    ensures 2 * i <= p
    decreases i
  {
    if i > 1 {
      PowersApart(p / 2, i / 2);
    }
  }

  /** `powers_of_two(num)`: the powers of two whose bits are set in `num`,
      in ascending order; they add up to `num`. Nothing for `num <= 0`. */
  method PowersOfTwo(num: int) returns (powers: seq<int>)
    ensures num <= 0 ==> powers == []
    ensures StrictlyAscending(powers)
    ensures forall t :: 0 <= t < |powers| ==> IsPowerOfTwo(powers[t]) && powers[t] <= num
    ensures num > 0 ==> Sum(powers) == num
    ensures forall p :: p in powers <==> SelectsGroup(num, p)
  {
    powers := [];
    var i := 1;
    while i <= num
      invariant IsPowerOfTwo(i)
      invariant num <= 0 ==> powers == []
      invariant StrictlyAscending(powers)
      invariant forall t :: 0 <= t < |powers| ==> powers[t] < i && powers[t] <= num
      invariant forall p :: p in powers <==> IsPowerOfTwo(p) && p < i && BitSet(num, p)
      invariant num > 0 ==> Sum(powers) == num % i
      decreases num - i
    {
      ModDouble(num, i);
      if BitSet(num, i) {
        SumAppend(powers, i);
        powers := powers + [i];
      }
      forall p | IsPowerOfTwo(p) && p < 2 * i && p != i ensures p < i {
        if p > i { PowersApart(p, i); }
      }
      i := 2 * i;
    }
    if num > 0 {
      DivModUnique(num, i, 0, num);
    }
  }

  /** The SNEx1 group names selected by the mask `groupId`, out of the table
      of `name -> idcode` pairs. */
  function GrantedGroups(groupId: int, snex1Groups: map<string, int>): set<string> {
    set name | name in snex1Groups && SelectsGroup(groupId, snex1Groups[name])
  }

  /** `update_permissions(groupid, obs, snex1_groups)`: the names whose idcode
      occurs in `powers_of_two(groupid)`. Ids that are not powers of two, and
      set bits no group owns, select nothing. The permission grant itself is
      disabled in the source; the set returned is what it would be given for. */
  method UpdatePermissions(groupId: int, snex1Groups: map<string, int>) returns (granted: set<string>)
    ensures granted <= snex1Groups.Keys
    ensures forall name :: name in granted <==>
      name in snex1Groups && IsPowerOfTwo(snex1Groups[name]) && snex1Groups[name] <= groupId
      && BitSet(groupId, snex1Groups[name])
    ensures granted == GrantedGroups(groupId, snex1Groups)
  {
    var targetGroups := PowersOfTwo(groupId);
    granted := set name | name in snex1Groups && snex1Groups[name] in targetGroups;
  }

  /** Mask 5 (binary 101) with groups A = 1 and B = 4 selects exactly {A, B};
      mask 0 selects nothing. */
  lemma GrantedGroupsExample()
    ensures GrantedGroups(5, map["A" := 1, "B" := 4]) == {"A", "B"}
    ensures GrantedGroups(0, map["A" := 1, "B" := 4]) == {}
  {
    var m := map["A" := 1, "B" := 4];
    assert IsPowerOfTwo(4) by { assert IsPowerOfTwo(2); }
    assert SelectsGroup(5, 1) && SelectsGroup(5, 4);
    assert "A" in GrantedGroups(5, m) && "B" in GrantedGroups(5, m);
  }
}
