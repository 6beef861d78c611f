/**
 * String operations of JavaScript used by the console pages and the identity-provider client.
 */
module Text {
  import opened Wrappers

  /** Template or `+` concatenation of a possibly undefined string: `undefined` prints as "undefined". */
  function JsText(o: Option<string>): (t: string)
    ensures o.Some? ==> t == o.value
  {
    match o
    case Some(s) => s
    case None => "undefined"
  }

  /** Truthiness of a possibly undefined string: neither undefined nor empty. */
  predicate Truthy(o: Option<string>)
  {
    o.Some? && o.value != ""
  }

  /** `s.includes(sub)`. */
  predicate Contains(s: string, sub: string)
    decreases |s|
  {
    |sub| <= |s| && (s[..|sub|] == sub || (|s| > 0 && Contains(s[1..], sub)))
  }

  /** `sub` occurs in `s` starting at position `i`. */
  predicate OccursAt(s: string, sub: string, i: int)
  {
    0 <= i <= |s| - |sub| && s[i..i + |sub|] == sub
  }

  /** `Contains` holds exactly when `sub` occurs in `s` at some position. */
  lemma {:induction false} ContainsIff(s: string, sub: string)
    ensures Contains(s, sub) <==> exists i :: OccursAt(s, sub, i)
  {
    if |sub| <= |s| && s[..|sub|] == sub {
      assert OccursAt(s, sub, 0);
    } else if |sub| <= |s| && |s| > 0 {
      ContainsIff(s[1..], sub);
      if Contains(s[1..], sub) {
        var i :| OccursAt(s[1..], sub, i);
        assert s[i + 1..i + 1 + |sub|] == s[1..][i..i + |sub|];
        assert OccursAt(s, sub, i + 1);
      }
      if exists i :: OccursAt(s, sub, i) {
        var i :| OccursAt(s, sub, i);
        assert i != 0;
        assert s[1..][i - 1..i - 1 + |sub|] == s[i..i + |sub|];
        assert OccursAt(s[1..], sub, i - 1);
      }
    }
  }

  /** `parts.join(sep)`, which is also what `toString()` does to an array with `sep` = ",". */
  function Join(parts: seq<string>, sep: string): string
  {
    if |parts| == 0 then ""
    else if |parts| == 1 then parts[0]
    else parts[0] + sep + Join(parts[1..], sep)
  }

  /** Appending one more part to a non-empty list adds a separator and the part. */
  lemma {:induction false} JoinSnoc(parts: seq<string>, x: string, sep: string)
    requires |parts| > 0
    ensures Join(parts + [x], sep) == Join(parts, sep) + sep + x
  {
    if |parts| > 1 {
      assert (parts + [x])[1..] == parts[1..] + [x];
      JoinSnoc(parts[1..], x, sep);
    }
  }

  /** The fold `ds.reduce((acc, curr) => `${acc}${curr},`, '')`: every part followed by a comma. */
  function CommaTerminated(ds: seq<string>): string
  {
    if |ds| == 0 then "" else CommaTerminated(ds[..|ds| - 1]) + ds[|ds| - 1] + ","
  }

  /** `s.slice(0, -1)`: `s` without its last character ("" stays ""). */
  function DropLast(s: string): (r: string)
    ensures |s| > 0 ==> s == r + [s[|s| - 1]]
    ensures |s| == 0 ==> r == ""
  {
    if |s| == 0 then "" else s[..|s| - 1]
  }

  /** The display cell of a relation list: the comma-terminated fold with its last character cut off. */
  function JoinDisplays(ds: seq<string>): string
  {
    DropLast(CommaTerminated(ds))
  }

  lemma {:induction false} CommaTerminatedIsJoin(ds: seq<string>)
    requires |ds| > 0
    ensures CommaTerminated(ds) == Join(ds, ",") + ","
  {
    var init, last := ds[..|ds| - 1], ds[|ds| - 1];
    assert ds == init + [last];
    assert CommaTerminated(ds) == CommaTerminated(init) + last + ",";
    if |init| > 0 {
      CommaTerminatedIsJoin(init);
      JoinSnoc(init, last, ",");
      assert CommaTerminated(ds) == (Join(init, ",") + "," + last) + ",";
    } else {
      assert Join(ds, ",") == last;
    }
  }

  /** The fold-and-cut produces exactly the comma-joined displays: no trailing comma, "" for no displays. */
  lemma JoinDisplaysIsJoin(ds: seq<string>)
    ensures JoinDisplays(ds) == Join(ds, ",")
  {
    if |ds| > 0 {
      CommaTerminatedIsJoin(ds);
      assert CommaTerminated(ds) == Join(ds, ",") + [','];
    }
  }

  /** `s.split(c)` for a one-character separator. */
  function Split(s: string, c: char): (parts: seq<string>)
    ensures |parts| >= 1
    decreases |s|
  {
    if |s| == 0 then [""]
    else
      var rest := Split(s[1..], c);
      if s[0] == c then [""] + rest else [[s[0]] + rest[0]] + rest[1..]
  }

  /** The first part of a split is the text before the first separator; there are further parts exactly when `s` holds a separator. */
  lemma {:induction false} SplitHead(s: string, c: char)
    ensures var head := Split(s, c)[0];
      && c !in head
      && |head| <= |s| && s[..|head|] == head
      && (|Split(s, c)| > 1 <==> c in s)
      && (c in s ==> |head| < |s| && s[|head|] == c)
  {
    if |s| > 0 {
      SplitHead(s[1..], c);
      assert s == [s[0]] + s[1..];
    }
  }

  /** No part of a split contains the separator. */
  lemma {:induction false} SplitPartsFree(s: string, c: char)
    ensures forall k :: 0 <= k < |Split(s, c)| ==> c !in Split(s, c)[k]
  {
    if |s| > 0 {
      SplitPartsFree(s[1..], c);
    }
  }

  /** Joining the parts with the separator gives back the original string. */
  lemma {:induction false} SplitJoin(s: string, c: char)
    ensures Join(Split(s, c), [c]) == s
  {
    if |s| > 0 {
      var rest := Split(s[1..], c);
      SplitJoin(s[1..], c);
      if s[0] == c {
        assert Split(s, c) == [""] + rest;
        assert ([""] + rest)[1..] == rest;
      } else {
        var parts := [[s[0]] + rest[0]] + rest[1..];
        assert Split(s, c) == parts;
        if |rest| > 1 {
          assert parts[1..] == rest[1..];
          assert Join(rest, [c]) == rest[0] + [c] + Join(rest[1..], [c]);
        }
      }
      assert s == [s[0]] + s[1..];
    }
  }

  /** A string free of the separator splits into itself alone. */
  lemma {:induction false} SplitFree(a: string, c: char)
    requires c !in a
    ensures Split(a, c) == [a]
  {
    if |a| > 0 {
      SplitFree(a[1..], c);
      assert a == [a[0]] + a[1..];
    }
  }

  /** Splitting at a separator between two strings splits each of them. */
  lemma {:induction false} SplitConcat(a: string, b: string, c: char)
    ensures Split(a + [c] + b, c) == Split(a, c) + Split(b, c)
    decreases |a|
  {
    var s := a + [c] + b;
    if |a| == 0 {
      assert s[1..] == b;
    } else {
      assert s[1..] == a[1..] + [c] + b;
      SplitConcat(a[1..], b, c);
    }
  }

  /** Splitting undoes joining when no part holds the separator. */
  lemma {:induction false} JoinSplit(parts: seq<string>, c: char)
    requires |parts| >= 1
    requires forall k :: 0 <= k < |parts| ==> c !in parts[k]
    ensures Split(Join(parts, [c]), c) == parts
  {
    if |parts| == 1 {
      SplitFree(parts[0], c);
    } else {
      JoinSplit(parts[1..], c);
      SplitFree(parts[0], c);
      SplitConcat(parts[0], Join(parts[1..], [c]), c);
      assert parts == [parts[0]] + parts[1..];
    }
  }
}
