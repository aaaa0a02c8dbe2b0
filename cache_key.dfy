/**
  The cache key of the Prometheus vector cache: the metric name and the
  label names, in order, joined by the separator "||". The key is a plain
  string concatenation, so it identifies an instrument only as long as no
  name or label name contains the character '|'.
 */
module CacheKeys {

  /** The separator the cache puts between the name and the label names. */
  const Separator: string := "||"

  /** Reference form of a joined tail: `sep` in front of every part. */
  function EachPrefixed(parts: seq<string>, sep: string): (joined: string)
  {
    if parts == [] then "" else sep + parts[0] + EachPrefixed(parts[1..], sep)
  }

  /**
    Go's strings.Join: the elements with `sep` between each neighbouring
    pair, that is the first element followed by `sep` and each further one.
   */
  function Join(elems: seq<string>, sep: string): (r: string)
    ensures elems == [] ==> r == ""
    ensures elems != [] ==> r == elems[0] + EachPrefixed(elems[1..], sep)
  {
    if |elems| == 0 then ""
    else if |elems| == 1 then elems[0]
    else elems[0] + sep + Join(elems[1..], sep)
  }

  /**
    getCacheKey: the metric name followed by "||" and a label name for
    each label, in the given order. It depends on the name and the label
    names and on nothing else.
   */
  function CacheKey(name: string, labels: seq<string>): (key: string)
    ensures key == name + EachPrefixed(labels, Separator)
  {
    assert ([name] + labels)[1..] == labels;
    Join([name] + labels, Separator)
  }

  /** No name or label name contains the character that the separator is made of. */
  predicate PipeFree(name: string, labels: seq<string>)
  {
    '|' !in name && forall l | l in labels :: '|' !in l
  }

  /**
    Reference decoder: splits a key at every "||", scanning left to right;
    `current` holds the characters of the part being read.
   */
  function SplitFrom(s: string, current: string): (parts: seq<string>)
    decreases |s|
  {
    if |s| == 0 then [current]
    else if |s| >= 2 && s[0] == '|' && s[1] == '|' then [current] + SplitFrom(s[2..], "")
    else SplitFrom(s[1..], current + [s[0]])
  }

  /** Splits a key back into the name and the label names. */
  function SplitKey(key: string): (parts: seq<string>)
  {
    SplitFrom(key, "")
  }

  /** The key starts with the name, and each label adds at least the two separator characters. */
  lemma CacheKeyStartsWithName(name: string, labels: seq<string>)
    ensures |CacheKey(name, labels)| >= |name| + 2 * |labels|
    ensures CacheKey(name, labels)[..|name|] == name
  {
    SuffixLength(labels);
  }

  lemma {:induction false} SuffixLength(labels: seq<string>)
    ensures |EachPrefixed(labels, Separator)| >= 2 * |labels|
  {
    if labels != [] {
      SuffixLength(labels[1..]);
    }
  }

  /** Scanning a run of characters that holds no '|' only extends the part being read. */
  lemma {:induction false} SplitFromSkipsPipeFree(a: string, rest: string, current: string)
    requires '|' !in a
    ensures SplitFrom(a + rest, current) == SplitFrom(rest, current + a)
    decreases |a|
  {
    if a == [] {
      assert a + rest == rest;
      assert current + a == current;
    } else {
      var s := a + rest;
      assert s[0] == a[0] && s[0] != '|';
      assert s[1..] == a[1..] + rest;
      assert '|' !in a[1..] by {
        forall i | 0 <= i < |a[1..]| ensures a[1..][i] != '|' {
          assert a[1..][i] == a[i + 1];
        }
      }
      SplitFromSkipsPipeFree(a[1..], rest, current + [a[0]]);
      assert current + [a[0]] + a[1..] == current + a;
    }
  }

  lemma {:induction false} SplitFromSuffix(labels: seq<string>, current: string)
    requires forall l | l in labels :: '|' !in l
    ensures SplitFrom(EachPrefixed(labels, Separator), current) == [current] + labels
    decreases |labels|
  {
    if labels != [] {
      var l, rest := labels[0], labels[1..];
      var s := EachPrefixed(labels, Separator);
      assert s == "||" + (l + EachPrefixed(rest, Separator)) by {
        assert labels[1..] == rest;
      }
      assert s[2..] == l + EachPrefixed(rest, Separator);
      assert SplitFrom(s, current) == [current] + SplitFrom(l + EachPrefixed(rest, Separator), "");
      SplitFromSkipsPipeFree(l, EachPrefixed(rest, Separator), "");
      assert "" + l == l;
      assert forall x | x in rest :: x in labels;
      SplitFromSuffix(rest, l);
      assert [l] + rest == labels;
    }
  }

  /**
    Round trip: when neither the name nor any label name contains '|',
    splitting the key at "||" gives back the name and the label names.
   */
  lemma CacheKeyRoundTrip(name: string, labels: seq<string>)
    requires PipeFree(name, labels)
    ensures SplitKey(CacheKey(name, labels)) == [name] + labels
  {
    SplitFromSkipsPipeFree(name, EachPrefixed(labels, Separator), "");
    assert "" + name == name;
    SplitFromSuffix(labels, name);
  }

  /**
    Among identities free of '|', two keys are equal exactly when the names
    and the label-name sequences (order included) are equal.
   */
  lemma CacheKeyInjective(name1: string, labels1: seq<string>, name2: string, labels2: seq<string>)
    requires PipeFree(name1, labels1) && PipeFree(name2, labels2)
    ensures CacheKey(name1, labels1) == CacheKey(name2, labels2) <==> name1 == name2 && labels1 == labels2
  {
    if CacheKey(name1, labels1) == CacheKey(name2, labels2) {
      CacheKeyRoundTrip(name1, labels1);
      CacheKeyRoundTrip(name2, labels2);
      assert ([name1] + labels1)[0] == name1;
      assert ([name1] + labels1)[1..] == labels1;
      assert ([name2] + labels2)[1..] == labels2;
    }
  }

  /** Label order is part of the identity: swapping two different labels changes the key. */
  lemma LabelOrderMatters(name: string, first: string, second: string)
    requires PipeFree(name, [first, second]) && first != second
    ensures CacheKey(name, [first, second]) != CacheKey(name, [second, first])
  {
    CacheKeyInjective(name, [first, second], name, [second, first]);
  }

  /**
    Without the '|'-free restriction the key is not injective: moving the
    first label name into the metric name behind "||" gives the same key
    for a different identity.
   */
  lemma CollisionFamily(name: string, moved: string, labels: seq<string>)
    ensures CacheKey(name + Separator + moved, labels) == CacheKey(name, [moved] + labels)
    ensures name + Separator + moved != name
  {
    assert ([moved] + labels)[1..] == labels;
  }

  /** For example, ("a||b", ["c"]) and ("a", ["b", "c"]) both give "a||b||c". */
  lemma CollisionWitness()
    ensures CacheKey("a||b", ["c"]) == CacheKey("a", ["b", "c"]) == "a||b||c"
  {
    assert "a" + Separator + "b" == "a||b";
    CollisionFamily("a", "b", ["c"]);
    assert ["b"] + ["c"] == ["b", "c"];
    assert ["b", "c"][1..] == ["c"] && ["c"][1..] == [];
    assert EachPrefixed(["c"], Separator) == "||c";
    assert EachPrefixed(["b", "c"], Separator) == "||b||c";
    assert "a" + "||b||c" == "a||b||c";
  }

  /** A '|' in a label name collides too: ("a|", ["b"]) and ("a", ["|b"]) both give "a|||b". */
  lemma LabelPipeCollision()
    ensures CacheKey("a|", ["b"]) == CacheKey("a", ["|b"]) == "a|||b"
    ensures ("a|", ["b"]) != ("a", ["|b"])
  {
    assert ["b"][1..] == [] && ["|b"][1..] == [];
    assert EachPrefixed(["b"], Separator) == "||b";
    assert EachPrefixed(["|b"], Separator) == "|||b";
    assert "a|" + "||b" == "a|||b";
    assert "a" + "|||b" == "a|||b";
  }
}
