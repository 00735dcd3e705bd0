/**
 The fixed service catalog of the renovation estimator and the lookup the
 estimator performs on it: the first catalog entry whose title equals the
 selected work type.
 */
module Catalog {
  import opened Wrappers

  /** One pricing tier: the label shown in the work-type selector and the
      price in roubles per square metre. Display-only fields (description,
      icon, feature list) carry no pricing logic and are not modelled. */
  datatype Service = Service(title: string, pricePerSqm: nat)

  /** No two entries share a title, so a title identifies at most one entry. */
  predicate TitlesDistinct(c: seq<Service>) {
    forall i, j :: 0 <= i < j < |c| ==> c[i].title != c[j].title
  }

  /** Every entry has a strictly positive unit price. */
  predicate PricesPositive(c: seq<Service>) {
    forall i :: 0 <= i < |c| ==> c[i].pricePerSqm > 0
  }

  /** The catalog hard-coded in the page: rough, pre-finish and finishing work. */
  function Services(): (c: seq<Service>)
    ensures |c| == 3
    ensures TitlesDistinct(c)
    ensures PricesPositive(c)
    ensures c[0].pricePerSqm == 3500 && c[1].pricePerSqm == 2800 && c[2].pricePerSqm == 4200
  {
    [ Service("Черновые работы", 3500),
      Service("Предчистовые работы", 2800),
      Service("Чистовые работы", 4200) ]
  }

  /** Some entry of `c` is titled exactly `t` (case-sensitive string equality). */
  predicate HasTitle(c: seq<Service>, t: string) {
    exists k :: 0 <= k < |c| && c[k].title == t
  }

  /** `k` is the position at which a left-to-right scan for title `t` stops:
      the entry there is titled `t` and no earlier one is. */
  predicate IsFirstMatch(c: seq<Service>, t: string, k: int) {
    && 0 <= k < |c|
    && c[k].title == t
    && forall j :: 0 <= j < k ==> c[j].title != t
  }

  /** The left-to-right scan of `Array.prototype.find`, started at `from`. */
  function FindFrom(c: seq<Service>, t: string, from: nat): (r: Option<nat>)
    requires from <= |c|
    ensures r.Some? ==> from <= r.value < |c| && c[r.value].title == t
    ensures r.Some? ==> forall j :: from <= j < r.value ==> c[j].title != t
    ensures r.None? ==> forall j :: from <= j < |c| ==> c[j].title != t
    decreases |c| - from
  {
    if from == |c| then None
    else if c[from].title == t then Some(from)
    else FindFrom(c, t, from + 1)
  }

  /** The entry `services.find` returns for title `t`: the first entry titled
      `t`, or nothing when no entry has that title. */
  function Find(c: seq<Service>, t: string): (r: Option<Service>)
    ensures r.Some? <==> HasTitle(c, t)
    ensures forall k :: IsFirstMatch(c, t, k) ==> r == Some(c[k])
  {
    match FindFrom(c, t, 0)
    case Some(k) => Some(c[k])
    case None => None
  }

  /** Only one position can be the first match. */
  lemma FirstMatchUnique(c: seq<Service>, t: string, k1: int, k2: int)
    requires IsFirstMatch(c, t, k1) && IsFirstMatch(c, t, k2)
    ensures k1 == k2
  {
  }

  /** In a catalog with distinct titles any entry titled `t` is the one found. */
  lemma DistinctTitlesFindAny(c: seq<Service>, t: string, k: int)
    requires TitlesDistinct(c)
    requires 0 <= k < |c| && c[k].title == t
    ensures Find(c, t) == Some(c[k])
  {
  }

  /** A title present in `c` is present in any catalog holding all of `c`'s entries. */
  lemma HasTitleTransfer(c: seq<Service>, d: seq<Service>, t: string)
    requires forall s :: s in c ==> s in d
    requires HasTitle(c, t)
    ensures HasTitle(d, t)
  {
    var k :| 0 <= k < |c| && c[k].title == t;
    assert c[k] in d;
  }

  /** For catalogs with distinct titles the entry order does not matter: two
      catalogs holding the same entries find the same entry for every title. */
  lemma FindOrderIndependent(c: seq<Service>, d: seq<Service>, t: string)
    requires TitlesDistinct(c) && TitlesDistinct(d)
    requires forall s :: s in c <==> s in d
    ensures Find(c, t) == Find(d, t)
  {
    if HasTitle(d, t) && !HasTitle(c, t) {
      HasTitleTransfer(d, c, t);
    }
    if HasTitle(c, t) {
      var k :| 0 <= k < |c| && c[k].title == t;
      assert c[k] in d;
      var m :| 0 <= m < |d| && d[m] == c[k];
      DistinctTitlesFindAny(c, t, k);
      DistinctTitlesFindAny(d, t, m);
    }
  }

  /** The labels the work-type selector offers, one per catalog entry, in order. */
  function Options(c: seq<Service>): (r: seq<string>)
    ensures |r| == |c|
    ensures forall i :: 0 <= i < |c| ==> r[i] == c[i].title
  {
    seq(|c|, i requires 0 <= i < |c| => c[i].title)
  }

  /** Every label the selector offers is found in the catalog, so picking a
      work type from the selector always yields a priced service. */
  lemma OptionsAreFound(c: seq<Service>, o: string)
    requires o in Options(c)
    ensures Find(c, o).Some?
    ensures Find(c, o).value.title == o
  {
  }
}
