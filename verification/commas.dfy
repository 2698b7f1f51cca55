/** Tags and categories as one comma separated string: splitting, joining, storing, reading, validating. */
module CommaList {

  const COMMA: char := ','

  /** value.split(',') */
  function Split(s: string): (items: seq<string>)
    ensures |items| >= 1
    ensures forall i :: 0 <= i < |items| ==> COMMA !in items[i]
  {
    if s == "" then [""]
    else if s[0] == COMMA then [""] + Split(s[1..])
    else var rest := Split(s[1..]); [[s[0]] + rest[0]] + rest[1..]
  }

  /** items.toString() */
  function Join(items: seq<string>): string {
    if items == [] then ""
    else if |items| == 1 then items[0]
    else items[0] + [COMMA] + Join(items[1..])
  }

  predicate CommaFree(items: seq<string>) {
    forall i :: 0 <= i < |items| ==> COMMA !in items[i]
  }

  /** Splitting and joining any string gives it back. */
  lemma {:induction false} JoinSplit(s: string)
    ensures Join(Split(s)) == s
  {
    if s != "" {
      JoinSplit(s[1..]);
      var rest := Split(s[1..]);
      if s[0] == COMMA {
        assert ([""] + rest)[1..] == rest;
      } else {
        var items := [[s[0]] + rest[0]] + rest[1..];
        assert items[1..] == rest[1..];
        assert Join(items) == [s[0]] + Join(rest);
      }
      assert s == [s[0]] + s[1..];
    }
  }

  lemma {:induction false} SplitWord(item: string, rest: string)
    requires COMMA !in item
    ensures Split(item) == [item]
    ensures Split(item + [COMMA] + rest) == [item] + Split(rest)
  {
    var s := item + [COMMA] + rest;
    if item == "" {
      assert s[1..] == rest;
    } else {
      SplitWord(item[1..], rest);
      assert s[1..] == item[1..] + [COMMA] + rest;
      assert item == [item[0]] + item[1..];
    }
  }

  /** Joining and splitting a list of comma-free items gives it back, unless the list is empty. */
  lemma {:induction false} SplitJoin(items: seq<string>)
    requires CommaFree(items) && items != []
    ensures Split(Join(items)) == items
  {
    if |items| == 1 {
      SplitWord(items[0], "");
    } else {
      SplitJoin(items[1..]);
      SplitWord(items[0], Join(items[1..]));
    }
  }

  /** What convertPostInfoToPostMetadata stores for a list. */
  function Store(items: seq<string>): string { Join(items) }

  /** What dispatchCreatePostsTask reads from a stored string. */
  function Read(stored: string): seq<string> {
    if stored == "" then [] else Split(stored)
  }

  /** A list survives storing and reading exactly when no item contains a comma and the list is not the
      one that holds a single empty string. */
  lemma StoreReadIff(items: seq<string>)
    ensures Read(Store(items)) == items <==> CommaFree(items) && items != [""]
  {
    if CommaFree(items) && items != [] {
      SplitJoin(items);
      if Join(items) == "" {
        assert Split("") == [""];
      }
    }
  }

  /** Reading and storing gives every stored string back. */
  lemma ReadStore(stored: string)
    ensures Store(Read(stored)) == stored
  {
    JoinSplit(stored);
  }

  // ---- the validator ----

  /** A value of a request: a string or anything else. */
  datatype Value = Text(text: string) | Other

  predicate Distinct(items: seq<string>) {
    forall i, j :: 0 <= i < j < |items| ==> items[i] != items[j]
  }

  predicate Accepted(value: Value, arrayMax: int, itemMax: int) {
    value.Text? &&
    |Split(value.text)| <= arrayMax && Distinct(Split(value.text)) &&
    forall i :: 0 <= i < |Split(value.text)| ==> |Split(value.text)[i]| <= itemMax
  }

  /** arrayUnique of class-validator. */
  method ArrayUnique(items: seq<string>) returns (unique: bool)
    ensures unique <==> Distinct(items)
  {
    var seen: set<string> := {};
    for i := 0 to |items|
      invariant seen == set k | 0 <= k < i :: items[k]
      invariant Distinct(items[..i])
    {
      if items[i] in seen {
        return false;
      }
      seen := seen + {items[i]};
      assert forall k :: 0 <= k < i ==> items[..i][k] == items[k];
    }
    assert items[..|items|] == items;
    return true;
  }

  /** IsCommaSeperatedString(arrayMax, itemMax) */
  method Validate(value: Value, arrayMax: int, itemMax: int) returns (ok: bool)
    ensures ok <==> Accepted(value, arrayMax, itemMax)
  {
    if !value.Text? {
      return false;
    }
    var items := Split(value.text);
    if |items| > arrayMax {
      return false;
    }
    var unique := ArrayUnique(items);
    if !unique {
      return false;
    }
    for i := 0 to |items|
      invariant forall k :: 0 <= k < i ==> |items[k]| <= itemMax
    {
      if |items[i]| > itemMax {
        return false;
      }
    }
    return true;
  }

  lemma {:induction false} JoinLength(items: seq<string>, itemMax: nat)
    requires items != [] && forall i :: 0 <= i < |items| ==> |items[i]| <= itemMax
    ensures |Join(items)| <= |items| * itemMax + |items| - 1
  {
    if |items| > 1 {
      JoinLength(items[1..], itemMax);
      assert |items| * itemMax == itemMax + (|items| - 1) * itemMax;
    }
  }

  /** n items of at most m characters and n - 1 commas: an accepted string is never longer. */
  lemma AcceptedIsBounded(value: Value, arrayMax: nat, itemMax: nat)
    requires Accepted(value, arrayMax, itemMax)
    ensures |value.text| <= arrayMax * itemMax + arrayMax - 1
  {
    var items := Split(value.text);
    JoinSplit(value.text);
    JoinLength(items, itemMax);
    Times(|items|, arrayMax, itemMax);
  }

  lemma Times(a: nat, b: nat, c: nat)
    requires a <= b
    ensures a * c + a <= b * c + b
  {
    assert b * c == a * c + (b - a) * c;
  }

  /** k items of m characters, each a repeated letter of its own. */
  function Widest(k: nat, m: nat): (items: seq<string>)
    requires k <= 26
  {
    seq(k, i requires 0 <= i < 26 => Repeat('a' + i as char, m))
  }

  function Repeat(c: char, m: nat): string {
    seq(m, _ => c)
  }

  lemma {:induction false} JoinWidth(items: seq<string>, m: nat)
    requires items != [] && forall i :: 0 <= i < |items| ==> |items[i]| == m
    ensures |Join(items)| == |items| * m + |items| - 1
  {
    if |items| > 1 {
      JoinWidth(items[1..], m);
      assert |items| * m == m + (|items| - 1) * m;
    }
  }

  /** The bound is reached, so the maximal lengths of categories and tags are exactly 203 and 509. */
  lemma BoundIsTight(k: nat, m: nat) returns (value: Value)
    requires 1 <= k <= 26 && m >= 1
    ensures Accepted(value, k, m) && |value.text| == k * m + k - 1
    ensures k == 4 && m == 50 ==> |value.text| == 203
    ensures k == 10 && m == 50 ==> |value.text| == 509
  {
    var items := Widest(k, m);
    value := Text(Join(items));
    assert CommaFree(items);
    forall i, j | 0 <= i < j < k ensures items[i] != items[j] {
      assert items[i][0] != items[j][0];
    }
    SplitJoin(items);
    JoinWidth(items, m);
  }

  /** What passes the validator is read back as at most arrayMax distinct items of bounded length. */
  lemma AcceptedIsRead(value: Value, arrayMax: nat, itemMax: nat)
    requires Accepted(value, arrayMax, itemMax)
    ensures |Read(value.text)| <= arrayMax && Distinct(Read(value.text)) && CommaFree(Read(value.text))
    ensures forall i :: 0 <= i < |Read(value.text)| ==> |Read(value.text)[i]| <= itemMax
    ensures Store(Read(value.text)) == value.text
  {
    ReadStore(value.text);
  }
}
