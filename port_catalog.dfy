/** The port catalogue: the list of port names `SerialPort::availablePorts`
    builds from what the host reports, and the case-insensitive lookup that
    `SerialPort::setPortName` does in it. */
module PortCatalog {

  /** True when no name occurs twice. */
  ghost predicate Distinct(names: seq<string>)
  {
    forall i, j :: 0 <= i < j < |names| ==> names[i] != names[j]
  }

  /** The index of the first occurrence of `x` in `s`. */
  function FirstIndex(s: seq<string>, x: string): (k: nat)
    requires x in s
    ensures k < |s| && s[k] == x
    ensures forall j :: 0 <= j < k ==> s[j] != x
  {
    if s[0] == x then 0 else 1 + FirstIndex(s[1..], x)
  }

  /** The host list with every repeated name dropped, keeping first
      occurrences in host order: what the loop of `availablePorts` appends. */
  function Dedup(s: seq<string>): seq<string>
  {
    if s == [] then []
    else
      var d := Dedup(s[..|s| - 1]);
      if s[|s| - 1] in d then d else d + [s[|s| - 1]]
  }

  /** The deduplicated list holds exactly the names of the host list. */
  lemma {:induction false} DedupMembers(s: seq<string>)
    ensures forall x :: x in Dedup(s) <==> x in s
  {
    if s != [] {
      var init := s[..|s| - 1];
      DedupMembers(init);
      assert s == init + [s[|s| - 1]];
    }
  }

  /** No name occurs twice in the deduplicated list. */
  lemma {:induction false} DedupDistinct(s: seq<string>)
    ensures Distinct(Dedup(s))
  {
    if s != [] {
      DedupDistinct(s[..|s| - 1]);
    }
  }

  /** Looking a name up in a prefix that holds it gives the same first index. */
  lemma {:induction false} FirstIndexPrefix(s: seq<string>, n: nat, x: string)
    requires n <= |s| && x in s[..n]
    ensures FirstIndex(s, x) == FirstIndex(s[..n], x)
  {
    if s[0] != x {
      assert s[1..][..n - 1] == s[..n][1..];
      FirstIndexPrefix(s[1..], n - 1, x);
    }
  }

  /** Names of the deduplicated list are ordered by where they first occur in
      the host list. */
  lemma {:induction false} DedupFirstOccurrenceOrder(s: seq<string>)
    ensures forall x :: x in Dedup(s) ==> x in s
    ensures forall i, j :: 0 <= i < j < |Dedup(s)| ==>
      FirstIndex(s, Dedup(s)[i]) < FirstIndex(s, Dedup(s)[j])
  {
    DedupMembers(s);
    if s != [] {
      var init := s[..|s| - 1];
      var d := Dedup(init);
      DedupFirstOccurrenceOrder(init);
      DedupMembers(init);
      forall y | y in d
        ensures FirstIndex(s, y) == FirstIndex(init, y) < |s| - 1
      {
        FirstIndexPrefix(s, |s| - 1, y);
      }
      var last := s[|s| - 1];
      if last !in d {
        assert last !in init;
        assert FirstIndex(s, last) == |s| - 1;
        forall i, j | 0 <= i < j < |Dedup(s)|
          ensures FirstIndex(s, Dedup(s)[i]) < FirstIndex(s, Dedup(s)[j])
        {
          assert Dedup(s)[i] == d[i];
          if j < |d| {
            assert Dedup(s)[j] == d[j];
            assert d[i] in d && d[j] in d;
          } else {
            assert Dedup(s)[j] == last;
            assert d[i] in d;
          }
        }
      } else {
        forall i, j | 0 <= i < j < |Dedup(s)|
          ensures FirstIndex(s, Dedup(s)[i]) < FirstIndex(s, Dedup(s)[j])
        {
          assert d[i] in d && d[j] in d;
        }
      }
    }
  }

  /** A list that already has no repeats is left as it is, so deduplicating
      twice is the same as once. */
  lemma {:induction false} DedupOfDistinct(s: seq<string>)
    requires Distinct(s)
    ensures Dedup(s) == s
  {
    if s != [] {
      var init := s[..|s| - 1];
      DedupOfDistinct(init);
      assert s == init + [s[|s| - 1]];
      assert s[|s| - 1] !in init by {
        forall k | 0 <= k < |init| ensures init[k] != s[|s| - 1] {
          assert s[k] != s[|s| - 1];
        }
      }
    }
  }

  lemma DedupIdempotent(s: seq<string>)
    ensures Dedup(Dedup(s)) == Dedup(s)
  {
    DedupDistinct(s);
    DedupOfDistinct(Dedup(s));
  }

  /** ASCII case folding of one character: upper-case letters become
      lower-case, everything else is left as it is. */
  function FoldAscii(c: char): (f: char)
    ensures !('A' <= f <= 'Z')
    ensures 'a' <= c <= 'z' || 'A' <= c <= 'Z' <==> 'a' <= f <= 'z'
  {
    if 'A' <= c <= 'Z' then (c as int - 'A' as int + 'a' as int) as char else c
  }

  /** `QString::compare(a, b, Qt::CaseInsensitive) == 0`, over ASCII folding. */
  predicate EqualsIgnoreCase(a: string, b: string)
  {
    |a| == |b| && forall i :: 0 <= i < |a| ==> FoldAscii(a[i]) == FoldAscii(b[i])
  }

  /** `QStringList::contains(name, Qt::CaseInsensitive)`. */
  function ContainsIgnoreCase(names: seq<string>, name: string): (r: bool)
    ensures r <==> exists i :: 0 <= i < |names| && EqualsIgnoreCase(names[i], name)
  {
    if names == [] then false
    else EqualsIgnoreCase(names[0], name) || ContainsIgnoreCase(names[1..], name)
  }

  /** Dropping repeats does not change which names a case-insensitive lookup
      finds. */
  lemma DedupContainsIgnoreCase(s: seq<string>, name: string)
    ensures ContainsIgnoreCase(Dedup(s), name) == ContainsIgnoreCase(s, name)
  {
    DedupMembers(s);
    if ContainsIgnoreCase(s, name) {
      var i :| 0 <= i < |s| && EqualsIgnoreCase(s[i], name);
      assert s[i] in Dedup(s);
      var j :| 0 <= j < |Dedup(s)| && Dedup(s)[j] == s[i];
    }
    if ContainsIgnoreCase(Dedup(s), name) {
      var j :| 0 <= j < |Dedup(s)| && EqualsIgnoreCase(Dedup(s)[j], name);
      assert Dedup(s)[j] in s;
      var i :| 0 <= i < |s| && s[i] == Dedup(s)[j];
    }
  }

  /** Every listed name is found by the lookup. */
  lemma ListedNameFound(names: seq<string>, name: string)
    requires name in names
    ensures ContainsIgnoreCase(names, name)
  {
    var k :| 0 <= k < |names| && names[k] == name;
    assert EqualsIgnoreCase(names[k], name);
  }

  /** The lookup cannot tell apart two names that differ only in the case of
      ASCII letters: it finds both or neither. */
  lemma {:induction false} LookupIgnoresCase(names: seq<string>, a: string, b: string)
    requires |a| == |b|
    requires forall i :: 0 <= i < |a| ==> FoldAscii(a[i]) == FoldAscii(b[i])
    ensures ContainsIgnoreCase(names, a) == ContainsIgnoreCase(names, b)
  {
    if names != [] {
      LookupIgnoresCase(names[1..], a, b);
      assert EqualsIgnoreCase(names[0], a) == EqualsIgnoreCase(names[0], b);
    }
  }
}
