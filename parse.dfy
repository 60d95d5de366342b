/**
 * Finding the images a Kubernetes manifest refers to
 * (kubernetes/parse.go, `parseImagesFromYaml`): every value stored under an
 * `image` key anywhere in a decoded YAML document. The document is a tree;
 * the entries of a mapping are listed in the order the iteration happens to
 * visit them, which Go leaves unspecified, so what the model promises about
 * mappings holds for every order.
 */
module KubeParse {
  /** A decoded YAML value: a string, another scalar, a sequence or a mapping. */
  datatype Yaml = Str(s: string) | Scalar | List(items: seq<Yaml>) | Map(entries: seq<(Yaml, Yaml)>)

  /**
   * The documents the source handles without panicking: every mapping key
   * is a string, and every value under an `image` key is a string.
   */
  predicate Valid(d: Yaml)
    decreases d
  {
    match d
    case Str(_) => true
    case Scalar => true
    case List(items) => forall i :: 0 <= i < |items| ==> Valid(items[i])
    case Map(entries) => forall i :: 0 <= i < |entries| ==> ValidEntry(entries[i])
  }

  predicate ValidEntry(e: (Yaml, Yaml))
    decreases e
  {
    e.0.Str? && (e.0.s == "image" ==> e.1.Str?) && Valid(e.1)
  }

  /** `parseImagesFromYaml`: a sequence yields its elements' images in order; a mapping its entries' images in iteration order. */
  function ParseImages(d: Yaml): seq<string>
    requires Valid(d)
    decreases d
  {
    match d
    case Str(_) => []
    case Scalar => []
    case List(items) => ListImages(items)
    case Map(entries) => MapImages(entries)
  }

  function ListImages(items: seq<Yaml>): seq<string>
    requires forall i :: 0 <= i < |items| ==> Valid(items[i])
    decreases items
  {
    if |items| == 0 then [] else ListImages(items[..|items| - 1]) + ParseImages(items[|items| - 1])
  }

  /** An `image` entry contributes its string value without descending; any other entry the images under its value. */
  function EntryImages(e: (Yaml, Yaml)): seq<string>
    requires ValidEntry(e)
    decreases e
  {
    if e.0.s == "image" then [e.1.s] else ParseImages(e.1)
  }

  function MapImages(entries: seq<(Yaml, Yaml)>): seq<string>
    requires forall i :: 0 <= i < |entries| ==> ValidEntry(entries[i])
    decreases entries
  {
    if |entries| == 0 then [] else MapImages(entries[..|entries| - 1]) + EntryImages(entries[|entries| - 1])
  }

  /** Where an image is referred to: a string value under an `image` key, at any depth below sequences and other keys. */
  predicate HasImage(d: Yaml, v: string)
    decreases d
  {
    match d
    case Str(_) => false
    case Scalar => false
    case List(items) => exists i :: 0 <= i < |items| && HasImage(items[i], v)
    case Map(entries) => exists i :: 0 <= i < |entries| && EntryHasImage(entries[i], v)
  }

  predicate EntryHasImage(e: (Yaml, Yaml), v: string)
    decreases e
  {
    if e.0 == Str("image") then e.1 == Str(v) else HasImage(e.1, v)
  }

  /**
   * How many times `v` is referred to: the number of `image` keys anywhere in
   * the document whose value is the string `v`.
   */
  function ImageCount(d: Yaml, v: string): nat
    decreases d
  {
    match d
    case Str(_) => 0
    case Scalar => 0
    case List(items) => ListCount(items, v)
    case Map(entries) => EntriesCount(entries, v)
  }

  function ListCount(items: seq<Yaml>, v: string): nat
    decreases items
  {
    if |items| == 0 then 0 else ListCount(items[..|items| - 1], v) + ImageCount(items[|items| - 1], v)
  }

  function EntryCount(e: (Yaml, Yaml), v: string): nat
    decreases e
  {
    if e.0 == Str("image") then (if e.1 == Str(v) then 1 else 0) else ImageCount(e.1, v)
  }

  function EntriesCount(entries: seq<(Yaml, Yaml)>, v: string): nat
    decreases entries
  {
    if |entries| == 0 then 0 else EntriesCount(entries[..|entries| - 1], v) + EntryCount(entries[|entries| - 1], v)
  }

  /** Scalars refer to no image. */
  lemma ScalarsHaveNoImages(s: string)
    ensures ParseImages(Str(s)) == [] && ParseImages(Scalar) == []
  {
  }

  /** The images of a sequence are those of its parts, concatenated in order. */
  lemma {:induction false} ListImagesAppend(a: seq<Yaml>, b: seq<Yaml>)
    requires forall i :: 0 <= i < |a| ==> Valid(a[i])
    requires forall i :: 0 <= i < |b| ==> Valid(b[i])
    ensures forall i :: 0 <= i < |a + b| ==> Valid((a + b)[i])
    ensures ListImages(a + b) == ListImages(a) + ListImages(b)
    decreases |b|
  {
    assert forall i :: 0 <= i < |a + b| ==> Valid((a + b)[i]) by {
      forall i | 0 <= i < |a + b| ensures Valid((a + b)[i]) {
        if i < |a| { assert (a + b)[i] == a[i]; } else { assert (a + b)[i] == b[i - |a|]; }
      }
    }
    if |b| > 0 {
      var b' := b[..|b| - 1];
      assert (a + b)[..|a + b| - 1] == a + b';
      ListImagesAppend(a, b');
    } else {
      assert a + b == a;
    }
  }

  /** A sequence of one element has exactly that element's images. */
  lemma ListOfOne(d: Yaml)
    requires Valid(d)
    ensures Valid(List([d])) && ParseImages(List([d])) == ParseImages(d)
  {
    var items := [d];
    assert items[0] == d && items[..0] == [];
    assert ListImages(items) == ListImages([]) + ParseImages(d);
  }

  /** Every entry of the list is valid. */
  predicate AllValid(entries: seq<(Yaml, Yaml)>)
  {
    forall i :: 0 <= i < |entries| ==> ValidEntry(entries[i])
  }

  /** The images of a mapping are those of its entries, concatenated in iteration order. */
  lemma {:induction false} MapImagesAppend(a: seq<(Yaml, Yaml)>, b: seq<(Yaml, Yaml)>)
    requires AllValid(a) && AllValid(b)
    ensures AllValid(a + b)
    ensures MapImages(a + b) == MapImages(a) + MapImages(b)
    decreases |b|
  {
    assert AllValid(a + b) by {
      forall i | 0 <= i < |a + b| ensures ValidEntry((a + b)[i]) {
        if i < |a| { assert (a + b)[i] == a[i]; } else { assert (a + b)[i] == b[i - |a|]; }
      }
    }
    if |b| > 0 {
      var b' := b[..|b| - 1];
      assert (a + b)[..|a + b| - 1] == a + b';
      MapImagesAppend(a, b');
    } else {
      assert a + b == a;
    }
  }

  /** The entries before and after `j` are valid when all are. */
  lemma SlicesValid(entries: seq<(Yaml, Yaml)>, j: nat)
    requires AllValid(entries) && j < |entries|
    ensures AllValid(entries[..j]) && AllValid(entries[j + 1..]) && ValidEntry(entries[j])
  {
    var a, b := entries[..j], entries[j + 1..];
    forall i | 0 <= i < |a| ensures ValidEntry(a[i]) { assert a[i] == entries[i]; }
    forall i | 0 <= i < |b| ensures ValidEntry(b[i]) { assert b[i] == entries[j + 1 + i]; }
  }

  /** Dropping the entry at `j` removes exactly its images from the multiset of the mapping's images. */
  lemma MapImagesRemove(entries: seq<(Yaml, Yaml)>, j: nat, rest: seq<(Yaml, Yaml)>)
    requires AllValid(entries)
    requires j < |entries| && rest == entries[..j] + entries[j + 1..]
    ensures AllValid(rest)
    ensures multiset(MapImages(entries)) == multiset(MapImages(rest)) + multiset(EntryImages(entries[j]))
  {
    var a, b := entries[..j], entries[j + 1..];
    SlicesValid(entries, j);
    MapImagesAppend(a, b);
    var one := [entries[j]];
    assert one[..0] == [];
    assert MapImages(one) == EntryImages(entries[j]);
    assert AllValid(one);
    MapImagesAppend(a, one);
    MapImagesAppend(a + one, b);
    SplitAround(entries, j);
    MultisetMiddle(MapImages(a), EntryImages(entries[j]), MapImages(b));
  }

  /** A list is the entries before `j`, the one at `j`, and those after. */
  lemma SplitAround<T>(s: seq<T>, j: nat)
    requires j < |s|
    ensures s == s[..j] + [s[j]] + s[j + 1..]
  {
  }

  /** Taking out the middle part of a concatenation takes its elements out of the multiset. */
  lemma MultisetMiddle(x: seq<string>, y: seq<string>, z: seq<string>)
    ensures multiset(x + y + z) == multiset(x + z) + multiset(y)
  {
    assert multiset(x + y + z) == multiset(x) + multiset(y) + multiset(z);
  }

  /**
   * The iteration order of a mapping does not matter: listing the same
   * entries in any other order gives the same images, as a multiset.
   */
  lemma {:induction false} MapOrderIrrelevant(e1: seq<(Yaml, Yaml)>, e2: seq<(Yaml, Yaml)>)
    requires AllValid(e1)
    requires multiset(e1) == multiset(e2)
    ensures AllValid(e2)
    ensures multiset(MapImages(e1)) == multiset(MapImages(e2))
    decreases |e1|
  {
    AllValidPermutation(e1, e2);
    if |e1| == 0 {
      assert |multiset(e2)| == 0;
    } else {
      var n := |e1| - 1;
      var e := e1[n];
      assert e in multiset(e1);
      var j :| 0 <= j < |e2| && e2[j] == e;
      var rest := e2[..j] + e2[j + 1..];
      MultisetRemoveLast(e1, e2, j);
      assert AllValid(e1[..n]) by {
        forall i | 0 <= i < n ensures ValidEntry(e1[..n][i]) { assert e1[..n][i] == e1[i]; }
      }
      MapOrderIrrelevant(e1[..n], rest);
      MapImagesRemove(e2, j, rest);
      assert e1 == e1[..n] + [e];
      assert [e][..0] == [];
      assert MapImages(e1) == MapImages(e1[..n]) + EntryImages(e);
    }
  }

  /** A permutation of valid entries is valid. */
  lemma AllValidPermutation(e1: seq<(Yaml, Yaml)>, e2: seq<(Yaml, Yaml)>)
    requires AllValid(e1) && multiset(e1) == multiset(e2)
    ensures AllValid(e2)
  {
    forall i | 0 <= i < |e2| ensures ValidEntry(e2[i]) {
      assert e2[i] in multiset(e2);
      assert e2[i] in multiset(e1);
    }
  }

  /** Matching the last element of one list with an equal element of a permutation of it leaves permutations. */
  lemma MultisetRemoveLast<T>(e1: seq<T>, e2: seq<T>, j: nat)
    requires multiset(e1) == multiset(e2) && |e1| > 0 && j < |e2| && e2[j] == e1[|e1| - 1]
    ensures multiset(e1[..|e1| - 1]) == multiset(e2[..j] + e2[j + 1..])
  {
    var n, e := |e1| - 1, e1[|e1| - 1];
    var rest := e2[..j] + e2[j + 1..];
    assert e1 == e1[..n] + [e];
    assert e2 == e2[..j] + [e] + e2[j + 1..];
    assert multiset(e1) == multiset(e1[..n]) + multiset{e};
    assert multiset(e2) == multiset(rest) + multiset{e};
    assert multiset(e1[..n]) == multiset(e1[..n]) + multiset{e} - multiset{e};
    assert multiset(rest) == multiset(rest) + multiset{e} - multiset{e};
  }

  /** So the images of a mapping, as a multiset, do not depend on the order of its entries. */
  lemma MapImagesOrderFree(e1: seq<(Yaml, Yaml)>, e2: seq<(Yaml, Yaml)>)
    requires Valid(Map(e1)) && multiset(e1) == multiset(e2)
    ensures Valid(Map(e2)) && multiset(ParseImages(Map(e1))) == multiset(ParseImages(Map(e2)))
  {
    MapOrderIrrelevant(e1, e2);
  }

  /**
   * The images found are exactly the values referred to under `image`
   * keys anywhere in the document: `v` is found if and only if it is there.
   */
  lemma {:induction false} ParseImagesFindsAll(d: Yaml, v: string)
    requires Valid(d)
    ensures v in ParseImages(d) <==> HasImage(d, v)
    decreases d, 2
  {
    match d
    case Str(_) =>
    case Scalar =>
    case List(items) => ListFindsAll(items, v, d);
    case Map(entries) => MapFindsAll(entries, v, d);
  }

  lemma {:induction false} ListFindsAll(items: seq<Yaml>, v: string, d: Yaml)
    requires forall i :: 0 <= i < |items| ==> Valid(items[i])
    requires d.List? && items <= d.items
    ensures v in ListImages(items) <==> exists i :: 0 <= i < |items| && HasImage(items[i], v)
    decreases d, 1, |items|
  {
    if |items| > 0 {
      var n := |items| - 1;
      var front := items[..n];
      assert front <= d.items;
      ListFindsAll(front, v, d);
      assert items[n] in d.items;
      ParseImagesFindsAll(items[n], v);
      if v in ListImages(items) {
        if v in ListImages(front) {
          var i :| 0 <= i < |front| && HasImage(front[i], v);
          assert items[i] == front[i];
        }
      }
      if exists i :: 0 <= i < |items| && HasImage(items[i], v) {
        var i :| 0 <= i < |items| && HasImage(items[i], v);
        if i < n {
          assert front[i] == items[i];
        }
      }
    }
  }

  lemma {:induction false} MapFindsAll(entries: seq<(Yaml, Yaml)>, v: string, d: Yaml)
    requires forall i :: 0 <= i < |entries| ==> ValidEntry(entries[i])
    requires d.Map? && entries <= d.entries
    ensures v in MapImages(entries) <==> exists i :: 0 <= i < |entries| && EntryHasImage(entries[i], v)
    decreases d, 1, |entries|
  {
    if |entries| > 0 {
      var n := |entries| - 1;
      var front := entries[..n];
      assert front <= d.entries;
      MapFindsAll(front, v, d);
      var e := entries[n];
      assert e in d.entries;
      assert v in EntryImages(e) <==> EntryHasImage(e, v) by {
        if e.0.s != "image" {
          assert e.1 < e;
          ParseImagesFindsAll(e.1, v);
        }
      }
      if v in MapImages(entries) {
        if v in MapImages(front) {
          var i :| 0 <= i < |front| && EntryHasImage(front[i], v);
          assert entries[i] == front[i];
        }
      }
      if exists i :: 0 <= i < |entries| && EntryHasImage(entries[i], v) {
        var i :| 0 <= i < |entries| && EntryHasImage(entries[i], v);
        if i < n {
          assert front[i] == entries[i];
        }
      }
    }
  }

  /**
   * The images found, as a multiset, are exactly the references in the
   * document: each value is reported once per `image` key holding it.
   */
  lemma {:induction false} ParseImagesCounts(d: Yaml, v: string)
    requires Valid(d)
    ensures multiset(ParseImages(d))[v] == ImageCount(d, v)
    decreases d, 2
  {
    match d
    case Str(_) =>
    case Scalar =>
    case List(items) => ListCounts(items, v, d);
    case Map(entries) => EntriesCounts(entries, v, d);
  }

  lemma {:induction false} ListCounts(items: seq<Yaml>, v: string, d: Yaml)
    requires forall i :: 0 <= i < |items| ==> Valid(items[i])
    requires d.List? && items <= d.items
    ensures multiset(ListImages(items))[v] == ListCount(items, v)
    decreases d, 1, |items|
  {
    if |items| > 0 {
      var n := |items| - 1;
      var front := items[..n];
      assert front <= d.items;
      ListCounts(front, v, d);
      assert items[n] in d.items;
      ParseImagesCounts(items[n], v);
      assert multiset(ListImages(items)) == multiset(ListImages(front)) + multiset(ParseImages(items[n]));
    }
  }

  lemma {:induction false} EntriesCounts(entries: seq<(Yaml, Yaml)>, v: string, d: Yaml)
    requires forall i :: 0 <= i < |entries| ==> ValidEntry(entries[i])
    requires d.Map? && entries <= d.entries
    ensures multiset(MapImages(entries))[v] == EntriesCount(entries, v)
    decreases d, 1, |entries|
  {
    if |entries| > 0 {
      var n := |entries| - 1;
      var front := entries[..n];
      assert front <= d.entries;
      EntriesCounts(front, v, d);
      var e := entries[n];
      assert e in d.entries;
      assert multiset(EntryImages(e))[v] == EntryCount(e, v) by {
        if e.0.s != "image" {
          assert e.1 < e;
          ParseImagesCounts(e.1, v);
        }
      }
      assert multiset(MapImages(entries)) == multiset(MapImages(front)) + multiset(EntryImages(e));
    }
  }
}
