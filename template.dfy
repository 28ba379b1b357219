/**
 * Text built by interpolation. A Python f-string, or a chain of C++ `+` around variables, is its
 * literal parts with the values between them; a loop that appends one block per item builds the
 * concatenation of the blocks.
 */
module Template {
  import opened Wrappers
  import opened Text

  /** The literal parts `lits` with the values `holes` interpolated between them. */
  function Fill(lits: seq<string>, holes: seq<string>): string
    requires |lits| == |holes| + 1
    decreases |holes|
  {
    if |holes| == 0 then lits[0] else lits[0] + holes[0] + Fill(lits[1..], holes[1..])
  }

  /** The text opens with the first literal part followed by the first value. */
  lemma FillStart(lits: seq<string>, holes: seq<string>)
    requires |lits| == |holes| + 1 && |holes| > 0
    ensures IsPrefix(lits[0] + holes[0], Fill(lits, holes))
  {
    SelfPrefix(lits[0] + holes[0], Fill(lits[1..], holes[1..]));
  }

  /** The text closes with the last literal part. */
  lemma {:induction false} FillEnd(lits: seq<string>, holes: seq<string>)
    requires |lits| == |holes| + 1
    ensures IsSuffix(lits[|lits| - 1], Fill(lits, holes))
    decreases |holes|
  {
    if |holes| == 0 {
      SelfSuffix("", lits[0]);
      assert "" + lits[0] == lits[0];
    } else {
      FillEnd(lits[1..], holes[1..]);
      SuffixOfAppend(lits[|lits| - 1], lits[0] + holes[0], Fill(lits[1..], holes[1..]));
    }
  }

  /** Every interpolated value occurs in the text. */
  lemma {:induction false} FillContains(lits: seq<string>, holes: seq<string>, k: nat)
    requires |lits| == |holes| + 1 && k < |holes|
    ensures Contains(Fill(lits, holes), holes[k])
    decreases |holes|
  {
    var rest := Fill(lits[1..], holes[1..]);
    if k == 0 {
      ContainsMiddle(lits[0], holes[0], rest);
    } else {
      FillContains(lits[1..], holes[1..], k - 1);
      ContainsRight(lits[0] + holes[0], rest, holes[k]);
    }
  }

  /** Reads the one value of a two-part template back out of `s`; None when `s` does not fit. */
  function Unfill1(lits: seq<string>, s: string): Option<string>
    requires |lits| == 2
  {
    if |lits[0]| + |lits[1]| <= |s| && IsPrefix(lits[0], s) && IsSuffix(lits[1], s)
    then Some(s[|lits[0]|..|s| - |lits[1]|])
    else None
  }

  lemma Fill1(lits: seq<string>, a: string)
    requires |lits| == 2
    ensures Fill(lits, [a]) == lits[0] + a + lits[1]
  {
    assert Fill(lits[1..], []) == lits[1];
  }

  /** Any value is read back from the text it was interpolated into. */
  lemma Unfill1Fill(lits: seq<string>, a: string)
    requires |lits| == 2
    ensures Unfill1(lits, Fill(lits, [a])) == Some(a)
  {
    var s := Fill(lits, [a]);
    Fill1(lits, a);
    assert s[..|lits[0]|] == lits[0];
    assert s[|s| - |lits[1]|..] == lits[1];
    assert s[|lits[0]|..|s| - |lits[1]|] == a;
  }

  /** Only filled text is read: what is read back fills the template to exactly `s`. */
  lemma Fill1Unfill(lits: seq<string>, s: string)
    requires |lits| == 2 && Unfill1(lits, s).Some?
    ensures Fill(lits, [Unfill1(lits, s).value]) == s
  {
    var a := Unfill1(lits, s).value;
    Fill1(lits, a);
    assert s == s[..|lits[0]|] + s[|lits[0]|..|s| - |lits[1]|] + s[|s| - |lits[1]|..];
  }

  /**
   * Reads the two values of a three-part template back out of `s`. Each value runs up to the
   * first `d`, so the parts after the values must start with `d`.
   */
  function Unfill2(lits: seq<string>, d: char, s: string): Option<(string, string)>
    requires |lits| == 3
  {
    if !IsPrefix(lits[0], s) then None
    else
      var (a, rest) := TakeUntil(s[|lits[0]|..], d);
      if !IsPrefix(lits[1], rest) then None
      else
        var (b, tail) := TakeUntil(rest[|lits[1]|..], d);
        if tail == lits[2] then Some((a, b)) else None
  }

  lemma Fill2(lits: seq<string>, a: string, b: string)
    requires |lits| == 3
    ensures Fill(lits, [a, b]) == lits[0] + a + (lits[1] + b + lits[2])
  {
    assert Fill(lits[2..], []) == lits[2];
    assert Fill(lits[1..], [b]) == lits[1] + b + lits[2];
  }

  /** Values free of `d` are read back from the text they were interpolated into. */
  lemma Unfill2Fill(lits: seq<string>, d: char, a: string, b: string)
    requires |lits| == 3 && d !in a && d !in b
    requires |lits[1]| > 0 && lits[1][0] == d && |lits[2]| > 0 && lits[2][0] == d
    ensures Unfill2(lits, d, Fill(lits, [a, b])) == Some((a, b))
  {
    var s := Fill(lits, [a, b]);
    var rest := lits[1] + b + lits[2];
    Fill2(lits, a, b);
    SelfPrefix(lits[0], a + rest);
    assert s == lits[0] + (a + rest);
    assert s[|lits[0]|..] == a + rest;
    TakeUntilJoin(a, rest, d);
    SelfPrefix(lits[1], b + lits[2]);
    assert rest == lits[1] + (b + lits[2]);
    assert rest[|lits[1]|..] == b + lits[2];
    TakeUntilJoin(b, lits[2], d);
  }

  /** Only filled text is read: what is read back fills the template to exactly `s`. */
  lemma Fill2Unfill(lits: seq<string>, d: char, s: string)
    requires |lits| == 3 && Unfill2(lits, d, s).Some?
    ensures Fill(lits, [Unfill2(lits, d, s).value.0, Unfill2(lits, d, s).value.1]) == s
  {
    var x := s[|lits[0]|..];
    var (a, rest) := TakeUntil(x, d);
    var y := rest[|lits[1]|..];
    var (b, tail) := TakeUntil(y, d);
    assert tail == lits[2];
    PrefixSplit(lits[1], rest);
    assert rest == lits[1] + b + lits[2] by {
      assert rest == lits[1] + (b + lits[2]);
    }
    PrefixSplit(lits[0], s);
    assert s == lits[0] + a + rest by {
      assert s == lits[0] + (a + rest);
    }
    Fill2(lits, a, b);
  }

  /** The concatenation of `f` over `items`, in order: what a loop appending `f(item)` builds. */
  function ConcatMap<T>(f: T -> string, items: seq<T>): string {
    if |items| == 0 then "" else ConcatMap(f, items[..|items| - 1]) + f(items[|items| - 1])
  }

  /** Each part of the items contributes its own blocks, in order. */
  lemma {:induction false} ConcatMapAppend<T>(f: T -> string, a: seq<T>, b: seq<T>)
    ensures ConcatMap(f, a + b) == ConcatMap(f, a) + ConcatMap(f, b)
    decreases |b|
  {
    if |b| == 0 {
      assert a + b == a;
    } else {
      var b' := b[..|b| - 1];
      assert (a + b)[..|a + b| - 1] == a + b';
      ConcatMapAppend(f, a, b');
    }
  }

  /** One more iteration appends the block of the next item. */
  lemma ConcatMapSnoc<T>(f: T -> string, items: seq<T>, i: nat)
    requires i < |items|
    ensures ConcatMap(f, items[..i + 1]) == ConcatMap(f, items[..i]) + f(items[i])
  {
    assert items[..i + 1][..i] == items[..i];
  }

  /** The block of item `i` sits between the blocks of the items before it and after it. */
  lemma ConcatMapSplit<T>(f: T -> string, items: seq<T>, i: nat)
    requires i < |items|
    ensures ConcatMap(f, items) == ConcatMap(f, items[..i]) + f(items[i]) + ConcatMap(f, items[i + 1..])
  {
    var front, back := items[..i + 1], items[i + 1..];
    assert items == front + back;
    ConcatMapAppend(f, front, back);
    ConcatMapSnoc(f, items, i);
    assert items[..i + 1] == front;
  }
}
