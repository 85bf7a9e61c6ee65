/** Generation of order and shipment identifiers: a type tag such as "SO-"
    followed by eight upper-case hexadecimal digits. The source draws the
    digits from a random UUID; here the generator is deterministic and proved
    to return an identifier that is not yet a key of the target store. */
module Ids {

  /** Number of hexadecimal digits after the tag. */
  const Width: nat := 8

  /** Number of distinct eight-digit suffixes, 16^8. */
  const Capacity: nat := 0x1_0000_0000

  function Pow16(k: nat): nat
  {
    if k == 0 then 1 else 16 * Pow16(k - 1)
  }

  predicate IsHexDigit(c: char)
  {
    '0' <= c <= '9' || 'A' <= c <= 'F'
  }

  /** The upper-case digit for a value below 16. */
  function HexDigit(d: nat): (c: char)
    requires d < 16
    ensures IsHexDigit(c)
  {
    if d < 10 then ('0' as int + d) as char else ('A' as int + d - 10) as char
  }

  /** The last `k` hexadecimal digits of `n`, most significant first. */
  function Hex(k: nat, n: nat): (r: string)
    ensures |r| == k
    ensures forall i | 0 <= i < k :: IsHexDigit(r[i])
  {
    if k == 0 then "" else Hex(k - 1, n / 16) + [HexDigit(n % 16)]
  }

  /** Shape of a generated identifier: the tag, then `Width` hexadecimal digits. */
  predicate IsGeneratedId(tag: string, id: string)
  {
    && |id| == |tag| + Width
    && id[..|tag|] == tag
    && forall i | |tag| <= i < |id| :: IsHexDigit(id[i])
  }

  function Candidate(tag: string, n: nat): string
  {
    tag + Hex(Width, n)
  }

  ghost function Candidates(tag: string, n: nat): set<string>
  {
    set i | 0 <= i < n :: Candidate(tag, i)
  }

  /** Distinct values below 16^k have distinct k-digit spellings. */
  lemma {:induction false} HexInjective(k: nat, a: nat, b: nat)
    requires a < Pow16(k) && b < Pow16(k)
    requires Hex(k, a) == Hex(k, b)
    ensures a == b
  {
    if k > 0 {
      var ha, hb := Hex(k, a), Hex(k, b);
      assert ha[k - 1] == hb[k - 1];
      assert HexDigit(a % 16) == HexDigit(b % 16);
      assert a % 16 == b % 16;
      assert ha[..k - 1] == Hex(k - 1, a / 16);
      assert hb[..k - 1] == Hex(k - 1, b / 16);
      HexInjective(k - 1, a / 16, b / 16);
    }
  }

  lemma Pow16Width()
    ensures Pow16(Width) == Capacity
  {
  }

  /** Distinct suffix values below 16^8 give distinct identifiers. */
  lemma CandidateInjective(tag: string, i: nat, j: nat)
    requires i < Capacity && j < Capacity
    requires Candidate(tag, i) == Candidate(tag, j)
    ensures i == j
  {
    assert Hex(Width, i) == Candidate(tag, i)[|tag|..];
    assert Hex(Width, j) == Candidate(tag, j)[|tag|..];
    Pow16Width();
    HexInjective(Width, i, j);
  }

  /** The first `n` candidates are pairwise distinct, so there are `n` of them. */
  lemma {:induction false} CandidatesCount(tag: string, n: nat)
    requires n <= Capacity
    ensures |Candidates(tag, n)| == n
  {
    if n > 0 {
      CandidatesCount(tag, n - 1);
      var c := Candidate(tag, n - 1);
      assert Candidates(tag, n) == Candidates(tag, n - 1) + {c};
      forall i | 0 <= i < n - 1
        ensures Candidate(tag, i) != c
      {
        if Candidate(tag, i) == c {
          CandidateInjective(tag, i, n - 1);
        }
      }
      assert c !in Candidates(tag, n - 1);
    }
  }

  /** Returns an identifier with the given tag that `used` does not contain.
      It tries the suffixes 00000000, 00000001, ... in turn; since `used` has
      fewer than 16^8 elements, one of the first |used| + 1 tries is free. */
  method FreshId(tag: string, used: set<string>) returns (id: string)
    requires |used| < Capacity
    ensures id !in used
    ensures IsGeneratedId(tag, id)
  {
    var n := 0;
    while Candidate(tag, n) in used
      invariant n <= |used|
      invariant Candidates(tag, n) <= used
      decreases |used| - n
    {
      assert Candidates(tag, n + 1) == Candidates(tag, n) + {Candidate(tag, n)};
      CandidatesCount(tag, n + 1);
      SubsetCard(Candidates(tag, n + 1), used);
      n := n + 1;
    }
    id := Candidate(tag, n);
    assert id[..|tag|] == tag;
    assert forall i | |tag| <= i < |id| :: id[i] == Hex(Width, n)[i - |tag|];
  }

  lemma {:induction false} SubsetCard<T>(a: set<T>, b: set<T>)
    requires a <= b
    ensures |a| <= |b|
  {
    if a != {} {
      var x :| x in a;
      SubsetCard(a - {x}, b - {x});
    }
  }
}
