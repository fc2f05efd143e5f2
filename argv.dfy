/**
 * The pieces every task's argument list is grown from: a flag pushed when a boolean is set, a
 * flag and its value pushed when an option is given, one flag/value pair per list element.
 */
module Argv {
  import opened Wrappers
  import opened Strings

  /** A coerced boolean option that is set: `if (params.x)`. */
  predicate IsSet(b: Option<bool>) {
    b == Some(true)
  }

  /** `flag` when `on`. */
  function Switch(flag: string, on: bool): (r: seq<string>)
    ensures |r| == if on then 1 else 0
  {
    if on then [flag] else []
  }

  /** `flag value` when the string option is truthy (present and non-empty). */
  function Valued(flag: string, v: Option<string>): (r: seq<string>)
    ensures |r| == if Truthy(v) then 2 else 0
  {
    if Truthy(v) then [flag, v.value] else []
  }

  /** `flag String(n)` when a number is given, zero included. */
  function Numeric(flag: string, n: Option<int>): (r: seq<string>)
    ensures |r| == if n.Some? then 2 else 0
  {
    if n.Some? then [flag, IntToDecimal(n.value)] else []
  }

  /** `if (xs?.length) args.push(...xs)`: the elements, in order, when the list is given. */
  method PushAll(args: seq<string>, xs: Option<seq<string>>) returns (r: seq<string>)
    ensures r == args + xs.GetOr([])
  {
    r := args;
    if xs.Some? && |xs.value| > 0 {
      r := r + xs.value;
    } else {
      assert r + [] == r;
    }
  }

  /** One `flag x` pair per element, in order. */
  function Pairs(flag: string, xs: seq<string>): (r: seq<string>)
    ensures |r| == 2 * |xs|
  {
    if xs == [] then []
    else Pairs(flag, xs[..|xs| - 1]) + [flag, xs[|xs| - 1]]
  }

  /** Element `i` sits at position `2i + 1`, right after its own copy of the flag. */
  lemma {:induction false} PairsAt(flag: string, xs: seq<string>)
    ensures forall i :: 0 <= i < |xs| ==> Pairs(flag, xs)[2 * i] == flag && Pairs(flag, xs)[2 * i + 1] == xs[i]
    decreases |xs|
  {
    if xs != [] {
      PairsAt(flag, xs[..|xs| - 1]);
    }
  }

  /** `if (on) args.push(flag)` */
  method PushSwitch(args: seq<string>, flag: string, on: bool) returns (r: seq<string>)
    ensures r == args + Switch(flag, on)
  {
    r := args;
    if on {
      r := r + [flag];
    }
  }

  /** `if (v) args.push(flag, v)` */
  method PushValued(args: seq<string>, flag: string, v: Option<string>) returns (r: seq<string>)
    ensures r == args + Valued(flag, v)
  {
    r := args;
    if Truthy(v) {
      r := r + [flag, v.value];
    }
  }

  /** `if (typeof n === 'number') args.push(flag, String(n))` */
  method PushNumeric(args: seq<string>, flag: string, n: Option<int>) returns (r: seq<string>)
    ensures r == args + Numeric(flag, n)
  {
    r := args;
    if n.Some? {
      r := r + [flag, IntToDecimal(n.value)];
    }
  }

  /** `for (const x of xs) args.push(flag, x)` */
  method PushPairs(args: seq<string>, flag: string, xs: seq<string>) returns (r: seq<string>)
    ensures r == args + Pairs(flag, xs)
  {
    r := args;
    for i := 0 to |xs|
      invariant r == args + Pairs(flag, xs[..i])
    {
      assert xs[..i + 1][..i] == xs[..i];
      r := r + [flag, xs[i]];
    }
    assert xs[..|xs|] == xs;
  }

  /** The three parts of `x + y + z` sit where their lengths put them. */
  lemma Segments(x: seq<string>, y: seq<string>, z: seq<string>)
    ensures var s := x + y + z;
      s[..|x|] == x && s[|x|..|x| + |y|] == y && s[|x| + |y|..] == z
  {
  }

  /** Concatenation regroups. */
  lemma Assoc(a: seq<string>, b: seq<string>, c: seq<string>)
    ensures a + b + c == a + (b + c)
  {
  }

  /** In `h + s1 + ... + s8 + z`, the eight middle parts sit together between `h` and `z`. */
  lemma Grouped(h: seq<string>, s1: seq<string>, s2: seq<string>, s3: seq<string>, s4: seq<string>,
                s5: seq<string>, s6: seq<string>, s7: seq<string>, s8: seq<string>, z: seq<string>)
    ensures h + s1 + s2 + s3 + s4 + s5 + s6 + s7 + s8 + z == h + (s1 + s2 + s3 + s4 + s5 + s6 + s7 + s8) + z
  {
    var m2 := s1 + s2;
    var m3 := m2 + s3;
    var m4 := m3 + s4;
    var m5 := m4 + s5;
    var m6 := m5 + s6;
    var m7 := m6 + s7;
    Assoc(h, s1, s2);
    Assoc(h, m2, s3);
    Assoc(h, m3, s4);
    Assoc(h, m4, s5);
    Assoc(h, m5, s6);
    Assoc(h, m6, s7);
    Assoc(h, m7, s8);
  }

  /** A rendered number is never a `--` flag. */
  lemma DecimalNotFlag(n: int, flag: string)
    requires |flag| >= 2 && flag[0] == '-' && flag[1] == '-'
    ensures IntToDecimal(n) != flag
  {
    var s := IntToDecimal(n);
    if n < 0 {
      assert IsDigit(s[1..][0]);
    } else {
      assert IsDigit(s[0]);
    }
  }

  /** Appending keeps a prefix. */
  lemma PrefixKept(a: seq<string>, b: seq<string>, n: nat)
    requires n <= |a|
    ensures (a + b)[..n] == a[..n]
  {
  }

  /** The pairs of a concatenation are the pairs of each part. */
  lemma {:induction false} PairsAppend(flag: string, xs: seq<string>, ys: seq<string>)
    ensures Pairs(flag, xs + ys) == Pairs(flag, xs) + Pairs(flag, ys)
    decreases |ys|
  {
    if ys == [] {
      assert xs + ys == xs;
    } else {
      var zs := xs + ys;
      assert zs[..|zs| - 1] == xs + ys[..|ys| - 1];
      PairsAppend(flag, xs, ys[..|ys| - 1]);
    }
  }
}
