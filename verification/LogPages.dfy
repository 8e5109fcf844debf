/** Cutting a sequence of entries to a size: src/util.rs. The size of an entry is a parameter. */
module LogPages {
  import opened Options
  import opened LogModel

  const NO_LIMIT: nat := 0xffff_ffff_ffff_ffff

  type Sizes = Entry -> nat

  function Sum(ents: seq<Entry>, bytes: Sizes): nat {
    if ents == [] then 0 else bytes(ents[0]) + Sum(ents[1..], bytes)
  }

  lemma {:induction false} SumConcat(a: seq<Entry>, b: seq<Entry>, bytes: Sizes)
    ensures Sum(a + b, bytes) == Sum(a, bytes) + Sum(b, bytes)
  {
    if a == [] {
      assert a + b == b;
    } else {
      assert (a + b)[1..] == a[1..] + b;
      SumConcat(a[1..], b, bytes);
    }
  }

  /** How many entries fit when `size` bytes are taken already; an entry that meets an empty page always fits. */
  function Taken(ents: seq<Entry>, size: nat, max: nat, bytes: Sizes): (n: nat)
    ensures n <= |ents|
  {
    if ents == [] || (size > 0 && size + bytes(ents[0]) > max) then 0
    else 1 + Taken(ents[1..], size + bytes(ents[0]), max, bytes)
  }

  function LimitSize(ents: seq<Entry>, max: Option<nat>, bytes: Sizes): (r: seq<Entry>)
    ensures r <= ents
  {
    if |ents| <= 1 || max.None? || max.value == NO_LIMIT then ents
    else ents[..Taken(ents, 0, max.value, bytes)]
  }

  /** limit_size (src/util.rs:54-77). */
  method Limit(ents: seq<Entry>, max: Option<nat>, bytes: Sizes) returns (r: seq<Entry>)
    ensures r == LimitSize(ents, max, bytes)
  {
    if |ents| <= 1 || max.None? || max.value == NO_LIMIT {
      return ents;
    }
    var size: nat, limit: nat := 0, 0;
    while limit < |ents| && (size == 0 || size + bytes(ents[limit]) <= max.value)
      invariant limit <= |ents|
      invariant Taken(ents, 0, max.value, bytes) == limit + Taken(ents[limit..], size, max.value, bytes)
    {
      assert ents[limit..][1..] == ents[limit + 1..];
      size, limit := size + bytes(ents[limit]), limit + 1;
    }
    r := ents[..limit];
  }

  lemma {:induction false} TakenConcat(a: seq<Entry>, b: seq<Entry>, size: nat, max: nat, bytes: Sizes)
    ensures var n := Taken(a, size, max, bytes);
            Taken(a + b, size, max, bytes)
            == if n < |a| then n else |a| + Taken(b, size + Sum(a, bytes), max, bytes)
    decreases |a|
  {
    if a == [] {
      assert a + b == b;
    } else if !(size > 0 && size + bytes(a[0]) > max) {
      assert (a + b)[1..] == a[1..] + b;
      TakenConcat(a[1..], b, size + bytes(a[0]), max, bytes);
    }
  }

  /** A limited first part that came back short is already the whole limited sequence. */
  lemma LimitConcat(a: seq<Entry>, b: seq<Entry>, max: Option<nat>, bytes: Sizes)
    ensures |LimitSize(a, max, bytes)| < |a| ==> LimitSize(a + b, max, bytes) == LimitSize(a, max, bytes)
  {
    if max.Some? {
      TakenConcat(a, b, 0, max.value, bytes);
      var n := Taken(a, 0, max.value, bytes);
      assert (a + b)[..n] == a[..n];
    }
  }

  lemma {:induction false} TakenMeaning(ents: seq<Entry>, size: nat, max: nat, bytes: Sizes)
    requires size > 0
    ensures var n := Taken(ents, size, max, bytes);
            && (n > 0 ==> size + Sum(ents[..n], bytes) <= max)
            && (n < |ents| ==> size + Sum(ents[..n + 1], bytes) > max)
    decreases |ents|
  {
    if ents != [] {
      if size + bytes(ents[0]) > max {
        assert ents[..1][1..] == [];
        assert Sum(ents[..1], bytes) == bytes(ents[0]) + Sum(ents[..1][1..], bytes);
      } else {
        var n := Taken(ents[1..], size + bytes(ents[0]), max, bytes);
        TakenMeaning(ents[1..], size + bytes(ents[0]), max, bytes);
        assert ents[..n + 1][1..] == ents[1..][..n];
        if n + 1 < |ents| {
          assert ents[..n + 2][1..] == ents[1..][..n + 1];
        }
      }
    }
  }

  /**
   A page of entries with real sizes is the longest prefix within the limit, except that it is never empty when
   there is something to send.
   */
  lemma LimitMeaning(ents: seq<Entry>, max: nat, bytes: Sizes)
    requires max != NO_LIMIT && (forall e | e in ents :: bytes(e) > 0) && ents != []
    ensures var r := LimitSize(ents, Some(max), bytes);
            && 1 <= |r| <= |ents| && r == ents[..|r|]
            && (|r| > 1 ==> Sum(r, bytes) <= max)
            && (|r| < |ents| ==> Sum(ents[..|r| + 1], bytes) > max)
  {
    if |ents| > 1 {
      var n := Taken(ents[1..], bytes(ents[0]), max, bytes);
      TakenMeaning(ents[1..], bytes(ents[0]), max, bytes);
      assert ents[..n + 1][1..] == ents[1..][..n];
      if n + 1 < |ents| {
        assert ents[..n + 2][1..] == ents[1..][..n + 1];
      }
    }
  }

  function Flatten(pages: seq<seq<Entry>>): seq<Entry> {
    if pages == [] then [] else Flatten(pages[..|pages| - 1]) + pages[|pages| - 1]
  }
}
