/**
 * The parameter coercions of src/lib/schemas.ts: the preprocess steps of `BooleanishSchema`
 * and `StringArraySchema`, applied to a raw parameter before validation.
 */
module Schemas {
  import opened Strings

  /** A raw parameter value as the host hands it over: JSON, plus `undefined`. */
  datatype Value =
    | Undefined
    | Null
    | Bool(b: bool)
    | Num(n: int)
    | Str(s: string)
    | Arr(items: seq<Value>)
    | Obj(fields: map<string, Value>)

  /**
   * `BooleanishSchema`'s preprocess step: only the exact literals "true" and "false" become
   * booleans; every other value, "TRUE" and "1" included, goes on unchanged to validation.
   */
  function CoerceBoolean(v: Value): (r: Value)
    ensures r == Bool(true) <==> v == Str("true") || v == Bool(true)
    ensures r == Bool(false) <==> v == Str("false") || v == Bool(false)
    ensures v != Str("true") && v != Str("false") ==> r == v
  {
    if v == Str("true") then Bool(true)
    else if v == Str("false") then Bool(false)
    else v
  }

  /** An entry of a coerced list: non-empty, trimmed, without a comma. */
  predicate CleanItem(x: string) {
    x != "" && Trimmed(x) && ',' !in x
  }

  /** Clean entries are exactly the non-empty, comma-free strings that `trim` leaves as they are. */
  lemma CleanItemIff(x: string)
    ensures CleanItem(x) <==> x != "" && Trim(x) == x && ',' !in x
  {
    TrimmedIff(x);
  }

  lemma TrimKeepsChars(s: string, c: char)
    requires c in Trim(s)
    ensures c in s
  {
    var t := TrimStart(s);
    var r := Trim(s);
    TrimStartSuffix(s);
    TrimEndPrefix(t);
    var i :| 0 <= i < |r| && r[i] == c;
    assert r[i] == t[i];
    assert t[i] == s[|s| - |t| + i];
  }

  /** `.map((entry) => entry.trim()).filter(Boolean)` */
  function TrimAndDrop(parts: seq<string>): (items: seq<string>)
    ensures forall i :: 0 <= i < |items| ==> items[i] != "" && Trimmed(items[i])
    ensures |items| <= |parts|
  {
    if parts == [] then []
    else
      var t := Trim(parts[0]);
      var rest := TrimAndDrop(parts[1..]);
      if t == "" then rest
      else [t] + rest
  }

  /** Trimming never introduces a comma. */
  lemma {:induction false} TrimAndDropNoComma(parts: seq<string>)
    requires forall i :: 0 <= i < |parts| ==> ',' !in parts[i]
    ensures forall i :: 0 <= i < |TrimAndDrop(parts)| ==> ',' !in TrimAndDrop(parts)[i]
    decreases |parts|
  {
    if parts != [] {
      TrimAndDropNoComma(parts[1..]);
      if ',' in Trim(parts[0]) {
        TrimKeepsChars(parts[0], ',');
      }
    }
  }

  /** The string branch of `StringArraySchema`'s preprocess step. */
  function CommaList(s: string): (items: seq<string>)
    ensures forall i :: 0 <= i < |items| ==> CleanItem(items[i])
    ensures IsBlank(s) <==> Trim(s) == []
    ensures IsBlank(s) ==> items == []
  {
    TrimEmptyIffBlank(s);
    var t := Trim(s);
    if t == "" then []
    else
      var parts := Split(t, ',');
      assert forall i :: 0 <= i < |parts| ==> parts[i] in parts;
      TrimAndDropNoComma(parts);
      TrimAndDrop(parts)
  }

  /** The entries wrapped as string values, in order. */
  function Strs(items: seq<string>): (vs: seq<Value>)
    ensures |vs| == |items|
    ensures forall i :: 0 <= i < |vs| ==> vs[i] == Str(items[i])
  {
    if items == [] then [] else [Str(items[0])] + Strs(items[1..])
  }

  /**
   * `StringArraySchema`'s preprocess step: a string becomes the list of its comma-separated,
   * trimmed, non-empty entries (the empty list when it is blank); any other value, an
   * existing array included, is returned unchanged.
   */
  function CoerceStringArray(v: Value): (r: Value)
    ensures v.Str? ==> r.Arr? && |r.items| <= |v.s|
    ensures v.Str? ==> forall i :: 0 <= i < |r.items| ==> r.items[i].Str? && CleanItem(r.items[i].s)
    ensures v.Str? && IsBlank(v.s) ==> r == Arr([])
    ensures !v.Str? ==> r == v
  {
    if v.Str? then
      var items := CommaList(v.s);
      CommaListShorter(v.s);
      Arr(Strs(items))
    else v
  }

  lemma {:induction false} SplitNoLonger(s: string, sep: char)
    ensures |Split(s, sep)| <= |s| + 1
    decreases |s|
  {
    if s != [] {
      SplitNoLonger(s[1..], sep);
    }
  }

  lemma CommaListShorter(s: string)
    ensures |CommaList(s)| <= |s|
  {
    var t := Trim(s);
    if t != "" {
      SplitNoLonger(t, ',');
      var parts := Split(t, ',');
      if |parts| == |t| + 1 {
        // every character of t is a comma, so every piece is empty and all are dropped
        AllCommasDrop(t);
      }
    }
  }

  lemma {:induction false} AllPiecesEmpty(s: string)
    requires |Split(s, ',')| == |s| + 1
    ensures forall i :: 0 <= i < |Split(s, ',')| ==> Split(s, ',')[i] == ""
    decreases |s|
  {
    if s != [] {
      SplitNoLonger(s[1..], ',');
      var rest := Split(s[1..], ',');
      if s[0] == ',' {
        AllPiecesEmpty(s[1..]);
        assert Split(s, ',') == [[]] + rest;
      }
    }
  }

  lemma {:induction false} DropEmpties(parts: seq<string>)
    requires forall i :: 0 <= i < |parts| ==> parts[i] == ""
    ensures TrimAndDrop(parts) == []
    decreases |parts|
  {
    if parts != [] {
      DropEmpties(parts[1..]);
    }
  }

  lemma AllCommasDrop(t: string)
    requires |Split(t, ',')| == |t| + 1
    ensures TrimAndDrop(Split(t, ',')) == []
  {
    AllPiecesEmpty(t);
    DropEmpties(Split(t, ','));
  }

  lemma {:induction false} JoinLastChar(xs: seq<string>, sep: char)
    requires |xs| >= 1 && xs[|xs| - 1] != ""
    ensures var j := Join(xs, sep); |j| >= 1 && j[|j| - 1] == xs[|xs| - 1][|xs[|xs| - 1]| - 1]
    decreases |xs|
  {
    if |xs| > 1 {
      JoinLastChar(xs[1..], sep);
    }
  }

  lemma {:induction false} TrimAndDropClean(xs: seq<string>)
    requires forall i :: 0 <= i < |xs| ==> CleanItem(xs[i])
    ensures TrimAndDrop(xs) == xs
    decreases |xs|
  {
    if xs != [] {
      assert CleanItem(xs[0]);
      TrimOfTrimmed(xs[0]);
      TrimAndDropClean(xs[1..]);
    }
  }

  lemma JoinFirstChar(xs: seq<string>, sep: char)
    requires |xs| >= 1 && xs[0] != ""
    ensures var j := Join(xs, sep); |j| >= 1 && j[0] == xs[0][0]
  {
    if |xs| > 1 {
      assert Join(xs, sep) == xs[0] + ([sep] + Join(xs[1..], sep));
    }
  }

  /** A join of clean entries has nothing for `trim` to strip. */
  lemma JoinOfCleanTrimmed(xs: seq<string>)
    requires |xs| >= 1 && forall i :: 0 <= i < |xs| ==> CleanItem(xs[i])
    ensures Join(xs, ',') != "" && Trim(Join(xs, ',')) == Join(xs, ',')
  {
    var first, last := xs[0], xs[|xs| - 1];
    assert CleanItem(first) && CleanItem(last);
    JoinFirstChar(xs, ',');
    JoinLastChar(xs, ',');
    var j := Join(xs, ',');
    assert !IsSpace(j[0]) && !IsSpace(j[|j| - 1]);
    TrimOfTrimmed(j);
  }

  /**
   * Coercion inverts `join(',')` on clean entries: the entries come back all present, each
   * unchanged, in their left-to-right order.
   */
  lemma CommaListOfJoin(xs: seq<string>)
    requires forall i :: 0 <= i < |xs| ==> CleanItem(xs[i])
    ensures CommaList(Join(xs, ',')) == xs
  {
    if xs != [] {
      var j := Join(xs, ',');
      JoinOfCleanTrimmed(xs);
      assert forall p :: p in xs ==> ',' !in p by {
        forall p | p in xs ensures ',' !in p {
          var i :| 0 <= i < |xs| && xs[i] == p;
          assert CleanItem(xs[i]);
        }
      }
      SplitJoin(xs, ',');
      TrimAndDropClean(xs);
    }
  }
}
