/** Strings in lexicographic order, and the keys of a set in that order. */
module Ordering {
  // The program sorts the keys of a map wherever it walks one and the order shows: in the hashed
  // text of a spec and in the lines of a snapshot's diff.

  import opened Text

  /** Strict lexicographic order. */
  predicate Less(a: string, b: string) {
    b != "" && (a == "" || a[0] < b[0] || (a[0] == b[0] && Less(a[1..], b[1..])))
  }

  lemma {:induction false} LessTotal(a: string, b: string)
    ensures Less(a, b) || Less(b, a) || a == b
  {
    if a != "" && b != "" && a[0] == b[0] {
      LessTotal(a[1..], b[1..]);
      assert a == [a[0]] + a[1..] && b == [b[0]] + b[1..];
    }
  }

  lemma {:induction false} LessTransitive(a: string, b: string, c: string)
    requires Less(a, b) && Less(b, c)
    ensures Less(a, c)
  {
    if a != "" && a[0] == b[0] && b[0] == c[0] {
      LessTransitive(a[1..], b[1..], c[1..]);
    }
  }

  lemma {:induction false} LessIrreflexive(a: string)
    ensures !Less(a, a)
  {
    if a != "" {
      LessIrreflexive(a[1..]);
    }
  }

  lemma {:induction false} LessAppend(a: string, c: char, b: string, d: char)
    requires |a| == |b|
    ensures Less(a + [c], b + [d]) <==> Less(a, b) || (a == b && c < d)
  {
    if a != "" {
      assert (a + [c])[1..] == a[1..] + [c] && (b + [d])[1..] == b[1..] + [d];
      LessAppend(a[1..], c, b[1..], d);
      assert a == b <==> a[0] == b[0] && a[1..] == b[1..];
    }
  }

  lemma DigitOrder(c: nat, d: nat)
    requires c < 10 && d < 10
    ensures Digit(c) < Digit(d) <==> c < d
  {
    assert DigitValue(Digit(c)) == Some(c) && DigitValue(Digit(d)) == Some(d);
  }

  lemma LastDigit(a: string, c: nat, b: string, d: nat)
    requires |a| == |b| && c < 10 && d < 10
    ensures Less(a + [Digit(c)], b + [Digit(d)]) <==> Less(a, b) || (a == b && c < d)
  {
    DigitOrder(c, d);
    LessAppend(a, Digit(c), b, Digit(d));
  }

  /** Numbers of equal length are in numerical order, days written with fixed width in time order. */
  lemma {:induction false} DecimalsInOrder(m: nat, n: nat)
    requires |Dec(m)| == |Dec(n)|
    ensures Less(Dec(m), Dec(n)) <==> m < n
  {
    if m < 10 && n < 10 {
      LastDigit("", m, "", n);
      assert "" + [Digit(m)] == Dec(m) && "" + [Digit(n)] == Dec(n);
    } else if m >= 10 && n >= 10 {
      DecimalsInOrder(m / 10, n / 10);
      LastDigit(Dec(m / 10), m % 10, Dec(n / 10), n % 10);
      if Dec(m / 10) == Dec(n / 10) { DecInjective(m / 10, n / 10); }
    }
  }

  predicate IsLeast(k: string, keys: set<string>) {
    k in keys && forall x :: x in keys && x != k ==> Less(k, x)
  }

  lemma {:induction false} LeastExists(keys: set<string>) returns (k: string)
    requires keys != {}
    ensures IsLeast(k, keys)
    decreases keys
  {
    var y :| y in keys;
    var rest := keys - {y};
    assert keys == rest + {y};
    if rest == {} {
      k := y;
    } else {
      var z := LeastExists(rest);
      LessTotal(y, z);
      k := if Less(y, z) then y else z;
      forall x | x in keys && x != k
        ensures Less(k, x)
      {
        if k == y && x != z {
          LessTransitive(y, z, x);
        }
      }
    }
  }

  lemma LeastIsUnique(a: string, b: string, keys: set<string>)
    requires IsLeast(a, keys) && IsLeast(b, keys)
    ensures a == b
  {
    if a != b {
      LessTransitive(a, b, a);
      LessIrreflexive(a);
    }
  }

  lemma LeastIsUniqueIn(keys: set<string>)
    requires keys != {}
    ensures exists k :: IsLeast(k, keys)
    ensures forall a, b :: IsLeast(a, keys) && IsLeast(b, keys) ==> a == b
  {
    var _ := LeastExists(keys);
    forall a, b | IsLeast(a, keys) && IsLeast(b, keys) ensures a == b { LeastIsUnique(a, b, keys); }
  }

  /** The keys of a map in sorted order. */
  function SortedKeys(keys: set<string>): (ks: seq<string>)
    ensures forall k :: k in ks <==> k in keys
    ensures |ks| == |keys|
  {
    if keys == {} then []
    else
      LeastIsUniqueIn(keys);
      var k :| IsLeast(k, keys);
      [k] + SortedKeys(keys - {k})
  }

  lemma {:induction false} SortedKeysRise(keys: set<string>)
    ensures forall i, j :: 0 <= i < j < |SortedKeys(keys)| ==> Less(SortedKeys(keys)[i], SortedKeys(keys)[j])
    decreases keys
  {
    if keys != {} {
      var k := SortedKeys(keys)[0];
      SortedKeysHead(keys);
      SortedKeysRise(keys - {k});
      forall j | 0 < j < |SortedKeys(keys)|
        ensures Less(k, SortedKeys(keys)[j])
      {
        assert SortedKeys(keys)[j] == SortedKeys(keys)[1..][j - 1];
        assert SortedKeys(keys)[j] in keys - {k};
      }
    }
  }

  lemma SortedKeysHead(keys: set<string>)
    requires keys != {}
    ensures IsLeast(SortedKeys(keys)[0], keys)
    ensures SortedKeys(keys)[1..] == SortedKeys(keys - {SortedKeys(keys)[0]})
  {
    LeastIsUniqueIn(keys);
  }

  /** Distinct and in falling order. */
  predicate Descends(ks: seq<string>) {
    forall i, j :: 0 <= i < j < |ks| ==> Less(ks[j], ks[i])
  }

  function Reversed(ks: seq<string>): (out: seq<string>)
    ensures |out| == |ks| && forall i :: 0 <= i < |ks| ==> out[i] == ks[|ks| - 1 - i]
  {
    seq(|ks|, i requires 0 <= i < |ks| => ks[|ks| - 1 - i])
  }

  lemma ReversedKeeps(ks: seq<string>)
    ensures forall k :: k in Reversed(ks) <==> k in ks
  {
    forall k | k in ks ensures k in Reversed(ks) {
      var i :| 0 <= i < |ks| && ks[i] == k;
      assert Reversed(ks)[|ks| - 1 - i] == k;
    }
  }

  /** The keys in falling order (ORDER BY ... DESC). */
  function Descending(keys: set<string>): (ks: seq<string>)
    ensures |ks| == |keys| && Descends(ks)
    ensures forall k :: k in ks <==> k in keys
  {
    SortedKeysRise(keys);
    ReversedKeeps(SortedKeys(keys));
    Reversed(SortedKeys(keys))
  }
}
