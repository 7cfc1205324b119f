/** The search-intents redirect resolver, `getSearchRedirectUrl`: it turns a
    search-intents result into the path to navigate to. A REDIRECT result goes
    to its url, a PRODUCT result to the product's page, and a LISTING result to
    a listing whose path is built from the slugs of up to one gender, brand and
    category resource, with every other resource turned into a query parameter. */
module SearchIntents {
  import opened Wrappers
  import opened JsText

  /** A raw filter value: facet ids are numbers, free text is a string. */
  datatype Raw = Num(n: int) | Str(s: string)

  /** A string field of the JSON result, which may also be absent
      (`undefined`) or `null`. */
  datatype MaybeText = Undefined | Null | Defined(text: string)

  /** One entry of a resource's `values`. */
  datatype FilterValue = FilterValue(value: Raw, slug: MaybeText)

  datatype Resource = Resource(typeFilter: int, values: seq<FilterValue>)

  /** A search-intents result; `resources` is None when the field is absent. */
  datatype SearchIntent = SearchIntent(typeRequest: int, redirectUrl: MaybeText, resources: Option<seq<Resource>>)

  /** The search utilities' constants: the three TYPE_REQUEST values,
      `Object.entries(TYPE_FILTER)` in its order, and FILTER_SLUGS_ORDER. */
  datatype Constants = Constants(
    redirect: int,
    product: int,
    listing: int,
    typeFilter: seq<(string, int)>,
    filterSlugsOrder: seq<int>)

  /** A value, or the TypeError JavaScript throws on reading a property of undefined. */
  datatype Result<T> = Ok(value: T) | TypeError

  /** The query parameters object, as its entries in insertion order. */
  type QueryParams = seq<(string, seq<Raw>)>

  /** The promoted resources and the working list left after promotion. */
  datatype Partition = Partition(withSlug: seq<Resource>, remaining: seq<Resource>)

  // ---------------------------------------------------------------------------
  // Slug promotion

  /** JavaScript truthiness of a slug: present and not the empty string. */
  predicate Truthy(slug: MaybeText) {
    slug.Defined? && slug.text != ""
  }

  /** A resource that may become a path segment for filter type `t`. */
  predicate Promotable(r: Resource, t: int) {
    r.typeFilter == t && |r.values| == 1 && Truthy(r.values[0].slug)
  }

  /** A resource on which the findIndex callback throws for filter type `t`
      (`values[0].slug` with `values` empty). */
  predicate Faults(r: Resource, t: int) {
    r.typeFilter == t && |r.values| == 0
  }

  /** The findIndex callback `typeFilter === t && values.length <= 1 && values[0].slug`,
      with JavaScript's short-circuit order. */
  function SlugMatch(r: Resource, t: int): (m: Result<bool>)
    ensures m == Ok(true) <==> Promotable(r, t)
    ensures m.TypeError? <==> Faults(r, t)
  {
    if r.typeFilter != t then Ok(false)
    else if |r.values| > 1 then Ok(false)
    else if |r.values| == 0 then TypeError
    else Ok(Truthy(r.values[0].slug))
  }

  /** `resources.findIndex(callback)` for filter type `t`: the first promotable
      resource, None when there is none, or the TypeError of a faulting resource
      met before any promotable one. */
  function FindSlugIndex(rs: seq<Resource>, t: int): (r: Result<Option<nat>>)
    ensures r.Ok? && r.value.Some? ==>
      && r.value.value < |rs| && Promotable(rs[r.value.value], t)
      && forall j :: 0 <= j < r.value.value ==> !Promotable(rs[j], t) && !Faults(rs[j], t)
    ensures r.Ok? && r.value.None? ==>
      forall j :: 0 <= j < |rs| ==> !Promotable(rs[j], t) && !Faults(rs[j], t)
    ensures r.TypeError? ==>
      exists j :: 0 <= j < |rs| && Faults(rs[j], t) && forall k :: 0 <= k < j ==> !Promotable(rs[k], t)
    decreases |rs|
  {
    if rs == [] then Ok(None)
    else
      match SlugMatch(rs[0], t)
      case TypeError => TypeError
      case Ok(true) => Ok(Some(0))
      case Ok(false) =>
        match FindSlugIndex(rs[1..], t)
        case TypeError =>
          ghost var j :| 0 <= j < |rs[1..]| && Faults(rs[1..][j], t)
                         && forall k :: 0 <= k < j ==> !Promotable(rs[1..][k], t);
          assert Faults(rs[j + 1], t);
          TypeError
        case Ok(None) => Ok(None)
        case Ok(Some(i)) => Ok(Some(i + 1))
  }

  /** `resources.splice(i, 1)`: the working list without its element at `i`. */
  function RemoveAt(s: seq<Resource>, i: nat): (r: seq<Resource>)
    requires i < |s|
    ensures |r| == |s| - 1
    ensures multiset(r) + multiset{s[i]} == multiset(s)
  {
    assert s == s[..i] + [s[i]] + s[i + 1..];
    s[..i] + s[i + 1..]
  }

  /** One pass of the forEach over FILTER_SLUGS_ORDER, for filter type `t`. */
  function PromoteStep(p: Partition, t: int): Result<Partition>
  {
    match FindSlugIndex(p.remaining, t)
    case TypeError => TypeError
    case Ok(None) => Ok(p)
    case Ok(Some(i)) => Ok(Partition(p.withSlug + [p.remaining[i]], RemoveAt(p.remaining, i)))
  }

  /** The forEach over `order` applied to a copy of `rs`. */
  function Promote(order: seq<int>, rs: seq<Resource>): Result<Partition>
    decreases |order|
  {
    if order == [] then Ok(Partition([], rs))
    else
      match Promote(order[..|order| - 1], rs)
      case TypeError => TypeError
      case Ok(p) => PromoteStep(p, order[|order| - 1])
  }

  /** Once a pass has thrown, the whole forEach has thrown. */
  lemma {:induction false} PromoteFaultPersists(order: seq<int>, rs: seq<Resource>, k: nat)
    requires k <= |order| && Promote(order[..k], rs).TypeError?
    ensures Promote(order, rs).TypeError?
    decreases |order|
  {
    if k < |order| {
      var n := |order| - 1;
      assert order[..n][..k] == order[..k];
      PromoteFaultPersists(order[..n], rs, k);
    } else {
      assert order[..k] == order;
    }
  }

  /** The forEach loop of the LISTING branch: for each filter type in `order`,
      the first promotable resource is moved from the working copy of the
      resource list into the slug list. */
  method PromoteSlugResources(order: seq<int>, originalResources: seq<Resource>) returns (r: Result<Partition>)
    ensures r == Promote(order, originalResources)
  {
    var resources := originalResources;
    var resourcesWithSlug: seq<Resource> := [];
    var k := 0;
    while k < |order|
      invariant 0 <= k <= |order|
      invariant Promote(order[..k], originalResources) == Ok(Partition(resourcesWithSlug, resources))
    {
      assert order[..k + 1][..k] == order[..k];
      var filteredIndex := FindSlugIndex(resources, order[k]);
      if filteredIndex.TypeError? {
        PromoteFaultPersists(order, originalResources, k + 1);
        return TypeError;
      }
      if filteredIndex.value.Some? {
        var i := filteredIndex.value.value;
        resourcesWithSlug := resourcesWithSlug + [resources[i]];
        resources := RemoveAt(resources, i);
      }
      k := k + 1;
    }
    assert order[..k] == order;
    r := Ok(Partition(resourcesWithSlug, resources));
  }

  // ---------------------------------------------------------------------------
  // Properties of the promotion

  /** `a` is `b` with some elements left out, the rest in the same order. */
  predicate SubseqOf<T(==)>(a: seq<T>, b: seq<T>)
    decreases |b|
  {
    if |a| == 0 then true
    else if |b| == 0 then false
    else (a[|a| - 1] == b[|b| - 1] && SubseqOf(a[..|a| - 1], b[..|b| - 1]))
         || SubseqOf(a, b[..|b| - 1])
  }

  lemma {:induction false} SubseqRefl<T>(a: seq<T>)
    ensures SubseqOf(a, a)
    decreases |a|
  {
    if |a| > 0 {
      SubseqRefl(a[..|a| - 1]);
    }
  }

  lemma {:induction false} SubseqTrans<T>(a: seq<T>, b: seq<T>, c: seq<T>)
    requires SubseqOf(a, b) && SubseqOf(b, c)
    ensures SubseqOf(a, c)
    decreases |c|
  {
    if |a| > 0 {
      assert |b| > 0 && |c| > 0;
      var a', b', c' := a[..|a| - 1], b[..|b| - 1], c[..|c| - 1];
      if SubseqOf(b, c') {
        SubseqTrans(a, b, c');
      } else if a[|a| - 1] == b[|b| - 1] && SubseqOf(a', b') {
        SubseqTrans(a', b', c');
      } else {
        SubseqTrans(a, b', c');
      }
    }
  }

  lemma {:induction false} SubseqRemoveAt(s: seq<Resource>, i: nat)
    requires i < |s|
    ensures SubseqOf(RemoveAt(s, i), s)
    decreases |s|
  {
    var n := |s| - 1;
    if i == n {
      assert RemoveAt(s, i) == s[..n];
      SubseqRefl(s[..n]);
    } else {
      var r := RemoveAt(s, i);
      assert r[|r| - 1] == s[n];
      assert r[..|r| - 1] == RemoveAt(s[..n], i);
      SubseqRemoveAt(s[..n], i);
    }
  }

  /** Promoted resources followed by the remaining ones are a permutation of the input. */
  lemma {:induction false} PromotePermutation(order: seq<int>, rs: seq<Resource>)
    requires Promote(order, rs).Ok?
    ensures var p := Promote(order, rs).value; multiset(p.withSlug + p.remaining) == multiset(rs)
    decreases |order|
  {
    if order != [] {
      PromotePermutation(order[..|order| - 1], rs);
    }
  }

  /** The remaining resources keep their original relative order. */
  lemma {:induction false} PromoteKeepsOrder(order: seq<int>, rs: seq<Resource>)
    requires Promote(order, rs).Ok?
    ensures SubseqOf(Promote(order, rs).value.remaining, rs)
    decreases |order|
  {
    if order == [] {
      SubseqRefl(rs);
    } else {
      var p := Promote(order[..|order| - 1], rs).value;
      PromoteKeepsOrder(order[..|order| - 1], rs);
      match FindSlugIndex(p.remaining, order[|order| - 1])
      case Ok(Some(i)) =>
        SubseqRemoveAt(p.remaining, i);
        SubseqTrans(RemoveAt(p.remaining, i), p.remaining, rs);
      case _ =>
    }
  }

  function TypesOf(rs: seq<Resource>): (ts: seq<int>)
    ensures |ts| == |rs| && forall k :: 0 <= k < |rs| ==> ts[k] == rs[k].typeFilter
  {
    seq(|rs|, k requires 0 <= k < |rs| => rs[k].typeFilter)
  }

  /** Every promoted resource has exactly one value with a non-empty slug, at
      most one is promoted per pass, and their filter types come in the order
      of `order`, whatever the order of the input. */
  lemma {:induction false} PromotePrecedence(order: seq<int>, rs: seq<Resource>)
    requires Promote(order, rs).Ok?
    ensures var ws := Promote(order, rs).value.withSlug;
      && |ws| <= |order|
      && SubseqOf(TypesOf(ws), order)
      && forall k :: 0 <= k < |ws| ==> Promotable(ws[k], ws[k].typeFilter)
    decreases |order|
  {
    if order != [] {
      var n := |order| - 1;
      var p := Promote(order[..n], rs).value;
      PromotePrecedence(order[..n], rs);
      var ws := Promote(order, rs).value.withSlug;
      assert order[..n] == order[..|order| - 1];
      var found := FindSlugIndex(p.remaining, order[n]);
      if found.Ok? && found.value.Some? {
        assert ws == p.withSlug + [p.remaining[found.value.value]];
        assert TypesOf(ws)[..|ws| - 1] == TypesOf(p.withSlug);
      } else {
        assert ws == p.withSlug;
      }
    }
  }

  /** The resources of filter type `t`, in order. */
  function OfType(rs: seq<Resource>, t: int): (r: seq<Resource>)
    decreases |rs|
  {
    if rs == [] then []
    else (if rs[0].typeFilter == t then [rs[0]] else []) + OfType(rs[1..], t)
  }

  lemma {:induction false} OfTypeConcat(a: seq<Resource>, b: seq<Resource>, t: int)
    ensures OfType(a + b, t) == OfType(a, t) + OfType(b, t)
    decreases |a|
  {
    if a != [] {
      var h := if a[0].typeFilter == t then [a[0]] else [];
      assert (a + b)[0] == a[0];
      assert (a + b)[1..] == a[1..] + b;
      assert OfType(a + b, t) == h + OfType(a[1..] + b, t);
      assert OfType(a, t) == h + OfType(a[1..], t);
      OfTypeConcat(a[1..], b, t);
    } else {
      assert a + b == b;
    }
  }

  /** Removing a resource of another type leaves the resources of type `t` as they were. */
  lemma OfTypeRemoveOther(rs: seq<Resource>, i: nat, t: int)
    requires i < |rs| && rs[i].typeFilter != t
    ensures OfType(RemoveAt(rs, i), t) == OfType(rs, t)
  {
    assert rs == rs[..i] + ([rs[i]] + rs[i + 1..]);
    OfTypeConcat(rs[..i], [rs[i]] + rs[i + 1..], t);
    OfTypeConcat(rs[..i], rs[i + 1..], t);
    OfTypeConcat([rs[i]], rs[i + 1..], t);
    assert OfType([rs[i]], t) == [];
  }

  /** The resource findIndex picks for type `t`, rather than its index. */
  function FirstSlug(rs: seq<Resource>, t: int): Result<Option<Resource>>
  {
    match FindSlugIndex(rs, t)
    case TypeError => TypeError
    case Ok(None) => Ok(None)
    case Ok(Some(i)) => Ok(Some(rs[i]))
  }

  lemma FirstSlugSkipsHead(rs: seq<Resource>, t: int)
    requires rs != [] && SlugMatch(rs[0], t) == Ok(false)
    ensures FirstSlug(rs, t) == FirstSlug(rs[1..], t)
  {
  }

  /** The resource picked for type `t` depends only on the resources of type `t`. */
  lemma {:induction false} FirstSlugOnlySeesType(rs: seq<Resource>, t: int)
    ensures FirstSlug(rs, t) == FirstSlug(OfType(rs, t), t)
    decreases |rs|
  {
    if rs != [] {
      var o := OfType(rs, t);
      FirstSlugOnlySeesType(rs[1..], t);
      if rs[0].typeFilter != t {
        assert o == OfType(rs[1..], t);
        FirstSlugSkipsHead(rs, t);
      } else {
        assert o == [rs[0]] + OfType(rs[1..], t);
        assert o[0] == rs[0] && o[1..] == OfType(rs[1..], t);
        if SlugMatch(rs[0], t) == Ok(false) {
          FirstSlugSkipsHead(rs, t);
          FirstSlugSkipsHead(o, t);
        }
      }
    }
  }

  /** A reference definition of the slug list: for each type in `order`, the
      first promotable resource of that type in the ORIGINAL input. */
  function PromotedByType(order: seq<int>, rs: seq<Resource>): Result<seq<Resource>>
    decreases |order|
  {
    if order == [] then Ok([])
    else
      match PromotedByType(order[..|order| - 1], rs)
      case TypeError => TypeError
      case Ok(ws) =>
        match FirstSlug(rs, order[|order| - 1])
        case TypeError => TypeError
        case Ok(None) => Ok(ws)
        case Ok(Some(x)) => Ok(ws + [x])
  }

  predicate Distinct(order: seq<int>) {
    forall i, j :: 0 <= i < j < |order| ==> order[i] != order[j]
  }

  /** With distinct filter types (as in Gender, Brand, Category), promoting
      from the shrinking working list gives the same slug list, and throws in
      the same cases, as picking each type's first promotable resource from
      the original input. Resources of types not yet processed are untouched. */
  lemma {:induction false} PromoteMatchesByType(order: seq<int>, rs: seq<Resource>)
    requires Distinct(order)
    ensures Promote(order, rs).TypeError? <==> PromotedByType(order, rs).TypeError?
    ensures Promote(order, rs).Ok? ==>
      && Promote(order, rs).value.withSlug == PromotedByType(order, rs).value
      && forall t :: t !in order ==> OfType(Promote(order, rs).value.remaining, t) == OfType(rs, t)
    decreases |order|
  {
    if order != [] {
      var n := |order| - 1;
      var prefix, last := order[..n], order[n];
      assert order[..|order| - 1] == prefix;
      PromoteMatchesByType(prefix, rs);
      if Promote(prefix, rs).Ok? {
        var p := Promote(prefix, rs).value;
        assert last !in prefix by {
          forall k | 0 <= k < n ensures prefix[k] != last {
            assert prefix[k] == order[k];
          }
        }
        FirstSlugOnlySeesType(p.remaining, last);
        FirstSlugOnlySeesType(rs, last);
        assert FirstSlug(p.remaining, last) == FirstSlug(rs, last);
        match FindSlugIndex(p.remaining, last)
        case Ok(Some(i)) =>
          forall t | t !in order
            ensures OfType(RemoveAt(p.remaining, i), t) == OfType(rs, t)
          {
            OfTypeRemoveOther(p.remaining, i, t);
          }
        case _ =>
      }
    }
  }

  // ---------------------------------------------------------------------------
  // The slug path

  /** How `Array.prototype.join` renders a slug: undefined and null become "". */
  function JoinedText(slug: MaybeText): string {
    if slug.Defined? then slug.text else ""
  }

  /** `values.map(({ slug }) => slug)` rendered by the outer join: an inner
      array turns into its elements joined with ",". */
  function Segment(r: Resource): string {
    Join(seq(|r.values|, k requires 0 <= k < |r.values| => JoinedText(r.values[k].slug)), ",")
  }

  /** `!!resourcesWithSlug.length && resourcesWithSlug.map(...).join('/')`; None is `false`. */
  function SlugsUrl(withSlug: seq<Resource>): Option<string> {
    if |withSlug| == 0 then None
    else Some(Join(seq(|withSlug|, k requires 0 <= k < |withSlug| => Segment(withSlug[k])), "/"))
  }

  lemma PromotableSegment(r: Resource, t: int)
    requires Promotable(r, t)
    ensures Segment(r) == r.values[0].slug.text
  {
    assert seq(|r.values|, k requires 0 <= k < |r.values| => JoinedText(r.values[k].slug)) == [r.values[0].slug.text];
  }

  /** The slug path is `false` when nothing was promoted, and otherwise the
      promoted slugs, each non-empty, joined by "/" in promotion order. */
  lemma SlugPath(order: seq<int>, rs: seq<Resource>)
    requires Promote(order, rs).Ok?
    ensures var ws := Promote(order, rs).value.withSlug;
      && (SlugsUrl(ws).None? <==> ws == [])
      && (ws != [] ==>
            && (forall k :: 0 <= k < |ws| ==> |ws[k].values| == 1 && ws[k].values[0].slug.Defined? && ws[k].values[0].slug.text != "")
            && SlugsUrl(ws) == Some(Join(seq(|ws|, k requires 0 <= k < |ws| && |ws[k].values| == 1 && ws[k].values[0].slug.Defined? => ws[k].values[0].slug.text), "/")))
  {
    var ws := Promote(order, rs).value.withSlug;
    PromotePrecedence(order, rs);
    if ws != [] {
      forall k | 0 <= k < |ws| ensures Segment(ws[k]) == ws[k].values[0].slug.text {
        PromotableSegment(ws[k], ws[k].typeFilter);
      }
      assert seq(|ws|, k requires 0 <= k < |ws| => Segment(ws[k]))
          == seq(|ws|, k requires 0 <= k < |ws| && |ws[k].values| == 1 && ws[k].values[0].slug.Defined? => ws[k].values[0].slug.text);
    }
  }

  // ---------------------------------------------------------------------------
  // Query parameters

  /** A first entry with value `v` in `table[1..]` is one in `table` when the
      head has another value. */
  lemma FirstEntryShift(table: seq<(string, int)>, v: int, r: Option<string>)
    requires table != [] && table[0].1 != v
    requires r.Some? ==>
      exists i :: 0 <= i < |table[1..]| && table[1..][i] == (r.value, v)
        && forall j :: 0 <= j < i ==> table[1..][j].1 != v
    ensures r.Some? ==>
      exists i :: 0 <= i < |table| && table[i] == (r.value, v)
        && forall j :: 0 <= j < i ==> table[j].1 != v
  {
    if r.Some? {
      var i :| 0 <= i < |table[1..]| && table[1..][i] == (r.value, v)
        && forall j :: 0 <= j < i ==> table[1..][j].1 != v;
      assert table[i + 1] == (r.value, v);
      forall j | 0 <= j < i + 1 ensures table[j].1 != v {
        if j > 0 { assert table[j] == table[1..][j - 1]; }
      }
    }
  }

  /** `Object.entries(TYPE_FILTER).find(type => type[1] === v)`, its name:
      the name of the FIRST entry with value `v`. */
  function NameFor(table: seq<(string, int)>, v: int): (r: Option<string>)
    ensures r.Some? ==>
      exists i :: 0 <= i < |table| && table[i] == (r.value, v)
        && forall j :: 0 <= j < i ==> table[j].1 != v
    ensures r.None? ==> forall i :: 0 <= i < |table| ==> table[i].1 != v
    decreases |table|
  {
    if table == [] then None
    else if table[0].1 == v then Some(table[0].0)
    else
      var r := NameFor(table[1..], v);
      FirstEntryShift(table, v, r);
      r
  }

  /** `TYPE_FILTER[name]`. */
  function ValueOf(table: seq<(string, int)>, name: string): Option<int>
    decreases |table|
  {
    if table == [] then None
    else if table[0].0 == name then Some(table[0].1)
    else ValueOf(table[1..], name)
  }

  /** `typeFilter === TYPE_FILTER.TEXT`. */
  predicate IsText(c: Constants, r: Resource) {
    ValueOf(c.typeFilter, "TEXT") == Some(r.typeFilter)
  }

  /** The query key of a remaining resource: `'query'` for the TEXT type,
      otherwise the lower-cased TYPE_FILTER name of its type, which throws when
      no entry of TYPE_FILTER has that value. */
  function QueryKey(c: Constants, r: Resource): Result<string>
  {
    var text := ValueOf(c.typeFilter, "TEXT");
    if text.Some? && r.typeFilter == text.value then Ok("query")
    else
      match NameFor(c.typeFilter, r.typeFilter)
      case None => TypeError
      case Some(name) => Ok(ToLower(name))
  }

  /** The key is `'query'` for the TEXT type; otherwise it throws exactly when
      TYPE_FILTER has no entry with the resource's type, and else it is the
      lower-cased name of the first such entry. */
  lemma QueryKeyCases(c: Constants, r: Resource)
    ensures IsText(c, r) ==> QueryKey(c, r) == Ok("query")
    ensures !IsText(c, r) ==>
      (QueryKey(c, r).TypeError? <==> forall i :: 0 <= i < |c.typeFilter| ==> c.typeFilter[i].1 != r.typeFilter)
    ensures !IsText(c, r) && QueryKey(c, r).Ok? ==>
      && IsLower(QueryKey(c, r).value)
      && exists i :: 0 <= i < |c.typeFilter| && c.typeFilter[i].1 == r.typeFilter
           && (forall j :: 0 <= j < i ==> c.typeFilter[j].1 != r.typeFilter)
           && QueryKey(c, r).value == ToLower(c.typeFilter[i].0)
  {
  }

  /** `values.map(({ value }) => value)`. */
  function RawValues(r: Resource): (vs: seq<Raw>)
    ensures |vs| == |r.values| && forall k :: 0 <= k < |vs| ==> vs[k] == r.values[k].value
  {
    seq(|r.values|, k requires 0 <= k < |r.values| => r.values[k].value)
  }

  function Keys(q: QueryParams): set<string> {
    set e | e in q :: e.0
  }

  predicate UniqueKeys(q: QueryParams) {
    forall i, j :: 0 <= i < j < |q| ==> q[i].0 != q[j].0
  }

  /** `q[key]`. */
  function Lookup(q: QueryParams, key: string): (r: Option<seq<Raw>>)
    ensures r.Some? <==> key in Keys(q)
    decreases |q|
  {
    if q == [] then None
    else if q[0].0 == key then Some(q[0].1)
    else
      var r := Lookup(q[1..], key);
      assert Keys(q) == {q[0].0} + Keys(q[1..]) by {
        assert q == [q[0]] + q[1..];
      }
      r
  }

  lemma ConsKeys(e: (string, seq<Raw>), q: QueryParams)
    ensures Keys([e] + q) == {e.0} + Keys(q)
  {
    assert ([e] + q)[1..] == q;
  }

  lemma ConsLookup(e: (string, seq<Raw>), q: QueryParams)
    ensures forall k :: Lookup([e] + q, k) == if e.0 == k then Some(e.1) else Lookup(q, k)
  {
    assert ([e] + q)[0] == e && ([e] + q)[1..] == q;
  }

  lemma ConsUnique(e: (string, seq<Raw>), q: QueryParams)
    ensures UniqueKeys([e] + q) <==> e.0 !in Keys(q) && UniqueKeys(q)
  {
    var r := [e] + q;
    assert r[0] == e && r[1..] == q;
    if UniqueKeys(r) {
      forall i, j | 0 <= i < j < |q| ensures q[i].0 != q[j].0 {
        assert r[i + 1] == q[i] && r[j + 1] == q[j];
      }
      forall x | x in q ensures x.0 != e.0 {
        var j :| 0 <= j < |q| && q[j] == x;
        assert r[j + 1] == x;
      }
    }
    if e.0 !in Keys(q) && UniqueKeys(q) {
      forall i, j | 0 <= i < j < |r| ensures r[i].0 != r[j].0 {
        if i == 0 {
          assert r[j] in q;
        } else {
          assert r[i] == q[i - 1] && r[j] == q[j - 1];
        }
      }
    }
  }

  /** `acc[key] = v`: the key is present afterwards with value `v`, and every
      other key keeps its value. */
  function Assign(acc: QueryParams, key: string, v: seq<Raw>): (r: QueryParams)
    ensures Keys(r) == Keys(acc) + {key}
    ensures Lookup(r, key) == Some(v)
    ensures forall k :: k != key ==> Lookup(r, k) == Lookup(acc, k)
    decreases |acc|
  {
    if acc == [] then
      ConsKeys((key, v), []);
      ConsLookup((key, v), []);
      [(key, v)]
    else
      ConsKeys(acc[0], acc[1..]);
      ConsLookup(acc[0], acc[1..]);
      assert acc == [acc[0]] + acc[1..];
      if acc[0].0 == key then
        ConsKeys((key, v), acc[1..]);
        ConsLookup((key, v), acc[1..]);
        [(key, v)] + acc[1..]
      else
        ConsKeys(acc[0], Assign(acc[1..], key, v));
        ConsLookup(acc[0], Assign(acc[1..], key, v));
        [acc[0]] + Assign(acc[1..], key, v)
  }

  /** A new key is added last, and the object grows by one entry exactly
      when the key is new (where an existing key goes: `AssignInPlace`). */
  lemma {:induction false} AssignPlacement(acc: QueryParams, key: string, v: seq<Raw>)
    ensures key !in Keys(acc) ==> Assign(acc, key, v) == acc + [(key, v)]
    ensures |Assign(acc, key, v)| == if key in Keys(acc) then |acc| else |acc| + 1
    decreases |acc|
  {
    if acc != [] {
      var rest := acc[1..];
      ConsKeys(acc[0], rest);
      assert acc == [acc[0]] + rest;
      if acc[0].0 != key {
        AssignPlacement(rest, key, v);
        assert Assign(acc, key, v) == [acc[0]] + Assign(rest, key, v);
        assert key in Keys(acc) <==> key in Keys(rest);
        if key !in Keys(rest) {
          assert [acc[0]] + (rest + [(key, v)]) == acc + [(key, v)];
        }
      }
    }
  }

  /** The position of the first entry with `key`. */
  function KeyIndex(q: QueryParams, key: string): (i: nat)
    requires key in Keys(q)
    ensures i < |q| && q[i].0 == key
    ensures forall j :: 0 <= j < i ==> q[j].0 != key
    decreases |q|
  {
    ConsKeys(q[0], q[1..]);
    assert q == [q[0]] + q[1..];
    if q[0].0 == key then 0
    else
      var i := KeyIndex(q[1..], key);
      assert q[i + 1] == q[1..][i];
      assert forall j :: 0 < j < i + 1 ==> q[j] == q[1..][j - 1];
      i + 1
  }

  /** An existing key is overwritten where it first occurs: the object keeps
      its order and only that entry changes. */
  lemma {:induction false} AssignInPlace(acc: QueryParams, key: string, v: seq<Raw>)
    requires key in Keys(acc)
    ensures Assign(acc, key, v) == acc[KeyIndex(acc, key) := (key, v)]
    decreases |acc|
  {
    var rest := acc[1..];
    AssignUnfold(acc, key, v);
    if acc[0].0 != key {
      ConsKeys(acc[0], rest);
      assert acc == [acc[0]] + rest;
      AssignInPlace(rest, key, v);
      var i := KeyIndex(rest, key);
      assert KeyIndex(acc, key) == i + 1;
      UpdateAfterHead(acc[0], rest, i, (key, v));
    }
  }

  /** One step of `Assign` on a non-empty object. */
  lemma AssignUnfold(acc: QueryParams, key: string, v: seq<Raw>)
    requires acc != []
    ensures acc[0].0 == key ==> Assign(acc, key, v) == acc[0 := (key, v)]
    ensures acc[0].0 != key ==> Assign(acc, key, v) == [acc[0]] + Assign(acc[1..], key, v)
  {
    if acc[0].0 == key {
      assert [(key, v)] + acc[1..] == acc[0 := (key, v)];
    }
  }

  lemma UpdateAfterHead<T>(e: T, w: seq<T>, i: nat, x: T)
    requires i < |w|
    ensures ([e] + w)[i + 1 := x] == [e] + w[i := x]
  {
  }

  /** Assignment never duplicates a key. */
  lemma {:induction false} AssignKeepsUnique(acc: QueryParams, key: string, v: seq<Raw>)
    requires UniqueKeys(acc)
    ensures UniqueKeys(Assign(acc, key, v))
    decreases |acc|
  {
    if acc == [] {
      ConsUnique((key, v), []);
    } else {
      ConsUnique(acc[0], acc[1..]);
      assert acc == [acc[0]] + acc[1..];
      if acc[0].0 == key {
        ConsKeys(acc[0], acc[1..]);
        ConsUnique((key, v), acc[1..]);
      } else {
        AssignKeepsUnique(acc[1..], key, v);
        ConsUnique(acc[0], Assign(acc[1..], key, v));
      }
    }
  }

  /** The reduce over the remaining resources, from the empty object. */
  function QueryParamsOf(c: Constants, rs: seq<Resource>): Result<QueryParams>
    decreases |rs|
  {
    if rs == [] then Ok([])
    else
      match QueryParamsOf(c, rs[..|rs| - 1])
      case TypeError => TypeError
      case Ok(acc) =>
        match QueryKey(c, rs[|rs| - 1])
        case TypeError => TypeError
        case Ok(key) => Ok(Assign(acc, key, RawValues(rs[|rs| - 1])))
  }

  /** One more resource after a throw still throws. */
  lemma QueryParamsFaultStep(c: Constants, rs: seq<Resource>)
    requires rs != [] && QueryParamsOf(c, rs[..|rs| - 1]).TypeError?
    ensures QueryParamsOf(c, rs).TypeError?
  {
  }

  lemma {:induction false} QueryParamsFaultPersists(c: Constants, rs: seq<Resource>, k: nat)
    requires k <= |rs| && QueryParamsOf(c, rs[..k]).TypeError?
    ensures QueryParamsOf(c, rs).TypeError?
    decreases |rs| - k
  {
    if k < |rs| {
      var next := rs[..k + 1];
      assert next[..|next| - 1] == rs[..k];
      QueryParamsFaultStep(c, next);
      QueryParamsFaultPersists(c, rs, k + 1);
    } else {
      assert rs[..k] == rs;
    }
  }

  /** Some resource of `rs` has no query key. */
  predicate SomeKeyFails(c: Constants, rs: seq<Resource>) {
    exists j :: 0 <= j < |rs| && QueryKey(c, rs[j]).TypeError?
  }

  lemma SomeKeyFailsSnoc(c: Constants, rs: seq<Resource>)
    requires rs != []
    ensures SomeKeyFails(c, rs) <==> SomeKeyFails(c, rs[..|rs| - 1]) || QueryKey(c, rs[|rs| - 1]).TypeError?
  {
    var n := |rs| - 1;
    if SomeKeyFails(c, rs[..n]) {
      var j :| 0 <= j < n && QueryKey(c, rs[..n][j]).TypeError?;
      assert rs[..n][j] == rs[j];
    }
    if SomeKeyFails(c, rs) {
      var j :| 0 <= j < |rs| && QueryKey(c, rs[j]).TypeError?;
      if j < n {
        assert rs[..n][j] == rs[j];
      }
    }
  }

  /** The reduce throws exactly when some remaining resource has no query key. */
  lemma {:induction false} QueryParamsFault(c: Constants, rs: seq<Resource>)
    ensures QueryParamsOf(c, rs).TypeError? <==> SomeKeyFails(c, rs)
    decreases |rs|
  {
    if rs != [] {
      QueryParamsFault(c, rs[..|rs| - 1]);
      SomeKeyFailsSnoc(c, rs);
    }
  }

  /** `j` is the last resource with its query key. */
  predicate LastWithKey(c: Constants, rs: seq<Resource>, j: nat)
    requires j < |rs|
  {
    forall j' :: j < j' < |rs| ==> QueryKey(c, rs[j']) != QueryKey(c, rs[j])
  }

  /** The entries have unique keys, at most one per remaining resource. */
  lemma {:induction false} QueryParamsUnique(c: Constants, rs: seq<Resource>)
    requires QueryParamsOf(c, rs).Ok?
    ensures UniqueKeys(QueryParamsOf(c, rs).value)
    ensures |QueryParamsOf(c, rs).value| <= |rs|
    decreases |rs|
  {
    if rs != [] {
      var pre := rs[..|rs| - 1];
      var last := rs[|rs| - 1];
      var acc := QueryParamsOf(c, pre).value;
      var key := QueryKey(c, last).value;
      assert QueryParamsOf(c, rs) == Ok(Assign(acc, key, RawValues(last)));
      QueryParamsUnique(c, pre);
      AssignKeepsUnique(acc, key, RawValues(last));
      AssignPlacement(acc, key, RawValues(last));
    }
  }

  /** The query keys of the resources of `rs` that have one. */
  function ResourceKeys(c: Constants, rs: seq<Resource>): set<string> {
    set j | 0 <= j < |rs| && QueryKey(c, rs[j]).Ok? :: QueryKey(c, rs[j]).value
  }

  lemma ResourceKeysSnoc(c: Constants, rs: seq<Resource>)
    requires rs != [] && QueryKey(c, rs[|rs| - 1]).Ok?
    ensures ResourceKeys(c, rs) == ResourceKeys(c, rs[..|rs| - 1]) + {QueryKey(c, rs[|rs| - 1]).value}
  {
    var n := |rs| - 1;
    var pre := rs[..n];
    forall k | k in ResourceKeys(c, rs) ensures k in ResourceKeys(c, pre) + {QueryKey(c, rs[n]).value} {
      var j :| 0 <= j < |rs| && QueryKey(c, rs[j]).Ok? && QueryKey(c, rs[j]).value == k;
      if j < n {
        assert pre[j] == rs[j];
      }
    }
    forall k | k in ResourceKeys(c, pre) ensures k in ResourceKeys(c, rs) {
      var j :| 0 <= j < |pre| && QueryKey(c, pre[j]).Ok? && QueryKey(c, pre[j]).value == k;
      assert pre[j] == rs[j];
    }
  }

  /** The keys are exactly the query keys of the remaining resources. */
  lemma {:induction false} QueryParamsKeys(c: Constants, rs: seq<Resource>)
    requires QueryParamsOf(c, rs).Ok?
    ensures Keys(QueryParamsOf(c, rs).value) == ResourceKeys(c, rs)
    decreases |rs|
  {
    if rs != [] {
      QueryParamsKeys(c, rs[..|rs| - 1]);
      ResourceKeysSnoc(c, rs);
    }
  }

  /** A later resource with the same key overwrites an earlier one: each key
      holds the raw values of the LAST remaining resource with that key. */
  lemma {:induction false} QueryParamsLastWins(c: Constants, rs: seq<Resource>, j: nat)
    requires QueryParamsOf(c, rs).Ok?
    requires j < |rs| && LastWithKey(c, rs, j)
    ensures QueryKey(c, rs[j]).Ok?
    ensures Lookup(QueryParamsOf(c, rs).value, QueryKey(c, rs[j]).value) == Some(RawValues(rs[j]))
    decreases |rs|
  {
    var n := |rs| - 1;
    QueryParamsOk(c, rs);
    if j < n {
      var pre := rs[..n];
      LastWithKeyPrefix(c, rs, j);
      QueryParamsLastWins(c, pre, j);
      assert pre[j] == rs[j];
    }
  }

  /** A reduce that did not throw did not throw on the prefix either, and its
      last step assigned the last resource's key. */
  lemma QueryParamsOk(c: Constants, rs: seq<Resource>)
    requires rs != [] && QueryParamsOf(c, rs).Ok?
    ensures QueryParamsOf(c, rs[..|rs| - 1]).Ok? && QueryKey(c, rs[|rs| - 1]).Ok?
    ensures QueryParamsOf(c, rs).value ==
      Assign(QueryParamsOf(c, rs[..|rs| - 1]).value, QueryKey(c, rs[|rs| - 1]).value, RawValues(rs[|rs| - 1]))
  {
  }

  lemma LastWithKeyPrefix(c: Constants, rs: seq<Resource>, j: nat)
    requires j < |rs| - 1 && LastWithKey(c, rs, j)
    ensures LastWithKey(c, rs[..|rs| - 1], j)
    ensures QueryKey(c, rs[|rs| - 1]) != QueryKey(c, rs[j])
  {
    var pre := rs[..|rs| - 1];
    forall j' | j < j' < |pre| ensures QueryKey(c, pre[j']) != QueryKey(c, pre[j]) {
      assert pre[j'] == rs[j'] && pre[j] == rs[j];
    }
  }

  /** The reduce of the LISTING branch: every remaining resource is written
      into the accumulator under its query key. */
  method BuildQueryParams(c: Constants, resources: seq<Resource>) returns (r: Result<QueryParams>)
    ensures r == QueryParamsOf(c, resources)
  {
    var acc: QueryParams := [];
    var i := 0;
    while i < |resources|
      invariant 0 <= i <= |resources|
      invariant QueryParamsOf(c, resources[..i]) == Ok(acc)
    {
      ghost var next := resources[..i + 1];
      assert next[..i] == resources[..i] && next[i] == resources[i];
      var res := resources[i];
      var queryParam := NameFor(c.typeFilter, res.typeFilter);
      var queryValues := RawValues(res);
      var text := ValueOf(c.typeFilter, "TEXT");
      var queryKey: string;
      if text.Some? && res.typeFilter == text.value {
        queryKey := "query";
      } else if queryParam.None? {
        assert QueryKey(c, res).TypeError?;
        assert QueryParamsOf(c, next).TypeError?;
        QueryParamsFaultPersists(c, resources, i + 1);
        return TypeError;
      } else {
        queryKey := ToLower(queryParam.value);
      }
      assert QueryKey(c, res) == Ok(queryKey);
      acc := Assign(acc, queryKey, queryValues);
      assert QueryParamsOf(c, next) == Ok(acc);
      i := i + 1;
    }
    assert resources[..i] == resources;
    r := Ok(acc);
  }

  // ---------------------------------------------------------------------------
  // The resolver

  /** How a template literal renders a string field: undefined becomes
      "undefined" and null becomes "null". */
  function TemplateText(field: MaybeText): string {
    match field
    case Undefined => "undefined"
    case Null => "null"
    case Defined(t) => t
  }

  /** `getSearchRedirectUrl(searchIntents, baseUrl)`: a path (`Ok(Some(_))`),
      undefined (`Ok(None)`), or a thrown TypeError. `buildSetFilters` gives the
      `queryString` of `buildSetFilters({}, queryParams)`; `urlJoin` is
      proper-url-join, with None for the `false` slug path. */
  function SearchRedirectUrl(
    c: Constants,
    buildSetFilters: QueryParams -> string,
    urlJoin: (string, Option<string>, string) -> string,
    searchIntents: Option<SearchIntent>,
    baseUrl: string): Result<Option<string>>
  {
    match searchIntents
    case None => Ok(None)
    case Some(si) =>
      match si.resources
      case None => TypeError
      case Some(resources) =>
        if si.typeRequest == c.redirect then Ok(Some("/" + TemplateText(si.redirectUrl)))
        else if si.typeRequest == c.product then
          if |resources| == 0 || |resources[0].values| == 0 then TypeError
          else Ok(Some(baseUrl + "/" + TemplateText(resources[0].values[0].slug)))
        else if si.typeRequest == c.listing then
          match Promote(c.filterSlugsOrder, resources)
          case TypeError => TypeError
          case Ok(p) =>
            match QueryParamsOf(c, p.remaining)
            case TypeError => TypeError
            case Ok(q) => Ok(Some(urlJoin(baseUrl, SlugsUrl(p.withSlug), buildSetFilters(q))))
        else Ok(None)
  }

  method GetSearchRedirectUrl(
    c: Constants,
    buildSetFilters: QueryParams -> string,
    urlJoin: (string, Option<string>, string) -> string,
    searchIntents: Option<SearchIntent>,
    baseUrl: string) returns (r: Result<Option<string>>)
    ensures r == SearchRedirectUrl(c, buildSetFilters, urlJoin, searchIntents, baseUrl)
  {
    if searchIntents.None? {
      return Ok(None);
    }
    var si := searchIntents.value;
    if si.resources.None? {
      return TypeError;
    }
    var resources := si.resources.value;
    if si.typeRequest == c.redirect {
      r := Ok(Some("/" + TemplateText(si.redirectUrl)));
    } else if si.typeRequest == c.product {
      if |resources| == 0 || |resources[0].values| == 0 {
        return TypeError;
      }
      var productSlug := resources[0].values[0].slug;
      r := Ok(Some(baseUrl + "/" + TemplateText(productSlug)));
    } else if si.typeRequest == c.listing {
      var promoted := PromoteSlugResources(c.filterSlugsOrder, resources);
      if promoted.TypeError? {
        return TypeError;
      }
      var slugsUrl := SlugsUrl(promoted.value.withSlug);
      var queryParams := BuildQueryParams(c, promoted.value.remaining);
      if queryParams.TypeError? {
        return TypeError;
      }
      var queryString := buildSetFilters(queryParams.value);
      r := Ok(Some(urlJoin(baseUrl, slugsUrl, queryString)));
    } else {
      r := Ok(None);
    }
  }

  /** The dispatch on `typeRequest`. Absent input gives undefined; a missing
      resource list throws before the switch, for every request type; REDIRECT
      prefixes its url with "/"; PRODUCT goes to the first resource's first
      slug under `baseUrl` and throws when either list is empty; LISTING joins
      `baseUrl`, the slug path and the query string, and throws exactly when
      the promotion or the reduce throws; any other type gives undefined. */
  lemma RedirectUrlByType(
    c: Constants,
    buildSetFilters: QueryParams -> string,
    urlJoin: (string, Option<string>, string) -> string,
    si: SearchIntent,
    baseUrl: string)
    ensures SearchRedirectUrl(c, buildSetFilters, urlJoin, None, baseUrl) == Ok(None)
    ensures var r := SearchRedirectUrl(c, buildSetFilters, urlJoin, Some(si), baseUrl);
      && (si.resources.None? ==> r == TypeError)
      && (si.resources.Some? && si.typeRequest == c.redirect ==> r == Ok(Some("/" + TemplateText(si.redirectUrl))))
      && (si.resources.Some? && si.typeRequest != c.redirect && si.typeRequest == c.product ==>
            var rs := si.resources.value;
            if |rs| == 0 || |rs[0].values| == 0 then r == TypeError
            else r == Ok(Some(baseUrl + "/" + TemplateText(rs[0].values[0].slug))))
      && ((si.resources.Some? && si.typeRequest != c.redirect && si.typeRequest != c.product
           && si.typeRequest == c.listing) ==>
            var promoted := Promote(c.filterSlugsOrder, si.resources.value);
            && (r.TypeError? <==> promoted.TypeError? || QueryParamsOf(c, promoted.value.remaining).TypeError?)
            && (r.Ok? ==> r == Ok(Some(urlJoin(baseUrl, SlugsUrl(promoted.value.withSlug),
                                                buildSetFilters(QueryParamsOf(c, promoted.value.remaining).value))))))
      && ((si.resources.Some? && si.typeRequest != c.redirect && si.typeRequest != c.product
           && si.typeRequest != c.listing) ==> r == Ok(None))
  {
  }

  // ---------------------------------------------------------------------------
  // Worked examples

  /** Sample constants: Gender 3, Brand 1, Category 2 and TEXT 10, as the
      comments of the resolver give them, and FILTER_SLUGS_ORDER as
      Gender / Brand / Category. The TYPE_REQUEST values are placeholders. */
  const SampleConstants: Constants := Constants(
    0, 1, 2,
    [("BRANDS", 1), ("CATEGORIES", 2), ("GENDER", 3), ("TEXT", 10)],
    [3, 1, 2])

  const SampleBags: Resource := Resource(2, [FilterValue(Num(1), Defined("bags"))])
  const SampleWomen: Resource := Resource(3, [FilterValue(Num(2), Defined("women"))])

  lemma SamplePromotionSteps()
    ensures PromoteStep(Partition([], [SampleBags, SampleWomen]), 3) == Ok(Partition([SampleWomen], [SampleBags]))
    ensures PromoteStep(Partition([SampleWomen], [SampleBags]), 1) == Ok(Partition([SampleWomen], [SampleBags]))
    ensures PromoteStep(Partition([SampleWomen], [SampleBags]), 2) == Ok(Partition([SampleWomen, SampleBags], []))
  {
    var rs := [SampleBags, SampleWomen];
    assert SlugMatch(SampleBags, 3) == Ok(false) && SlugMatch(SampleWomen, 3) == Ok(true);
    assert rs[1..] == [SampleWomen];
    assert FindSlugIndex(rs, 3) == Ok(Some(1));
    assert RemoveAt(rs, 1) == [SampleBags];
    assert [] + [rs[1]] == [SampleWomen];
    assert FindSlugIndex([SampleBags], 1) == Ok(None);
    assert SlugMatch(SampleBags, 2) == Ok(true);
    assert FindSlugIndex([SampleBags], 2) == Ok(Some(0));
    assert RemoveAt([SampleBags], 0) == [];
    assert [SampleWomen] + [[SampleBags][0]] == [SampleWomen, SampleBags];
  }

  lemma SamplePromotionPrefix()
    ensures Promote([3, 1], [SampleBags, SampleWomen]) == Ok(Partition([SampleWomen], [SampleBags]))
  {
    SamplePromotionSteps();
    assert [3, 1][..1] == [3] && [3][..0] == [];
    assert Promote([3], [SampleBags, SampleWomen]) == Ok(Partition([SampleWomen], [SampleBags]));
  }

  lemma SamplePromotion()
    ensures Promote([3, 1, 2], [SampleBags, SampleWomen]) == Ok(Partition([SampleWomen, SampleBags], []))
  {
    SamplePromotionPrefix();
    SamplePromotionSteps();
    assert [3, 1, 2][..2] == [3, 1];
  }

  lemma SampleSlugPath()
    ensures SlugsUrl([SampleWomen, SampleBags]) == Some("women/bags")
  {
    assert Segment(SampleWomen) == "women" by { PromotableSegment(SampleWomen, 3); }
    assert Segment(SampleBags) == "bags" by { PromotableSegment(SampleBags, 2); }
    var ws := [SampleWomen, SampleBags];
    assert seq(|ws|, k requires 0 <= k < |ws| => Segment(ws[k])) == ["women", "bags"];
    assert Join(["women", "bags"], "/") == "women/bags";
  }

  /** A category resource given before a gender resource still yields the
      path "women/bags": gender comes first. */
  lemma ListingPrecedenceExample(
    buildSetFilters: QueryParams -> string,
    urlJoin: (string, Option<string>, string) -> string)
    ensures
      SearchRedirectUrl(SampleConstants, buildSetFilters, urlJoin,
                        Some(SearchIntent(2, Undefined, Some([SampleBags, SampleWomen]))), "/shopping")
        == Ok(Some(urlJoin("/shopping", Some("women/bags"), buildSetFilters([]))))
  {
    SamplePromotion();
    SampleSlugPath();
    assert QueryParamsOf(SampleConstants, []) == Ok([]);
  }

  /** A free-text resource and nothing promotable: no slug path, and the
      query parameters are `{query: ["silk"]}`. */
  lemma ListingTextQueryExample(
    buildSetFilters: QueryParams -> string,
    urlJoin: (string, Option<string>, string) -> string)
    ensures
      var rs := [Resource(10, [FilterValue(Str("silk"), Undefined)])];
      SearchRedirectUrl(SampleConstants, buildSetFilters, urlJoin,
                        Some(SearchIntent(2, Undefined, Some(rs))), "/shopping")
        == Ok(Some(urlJoin("/shopping", None, buildSetFilters([("query", [Str("silk")])]))))
  {
    var silk := Resource(10, [FilterValue(Str("silk"), Undefined)]);
    var rs := [silk];
    var order := SampleConstants.filterSlugsOrder;
    assert order[..0] == [] && order[..1] == [3] && order[..2] == [3, 1];
    assert [3][..0] == [] && [3, 1][..1] == [3];
    assert rs[1..] == [];
    assert FindSlugIndex(rs, 3) == Ok(None);
    assert FindSlugIndex(rs, 1) == Ok(None);
    assert FindSlugIndex(rs, 2) == Ok(None);
    assert Promote(order, rs) == Ok(Partition([], rs));
    assert ValueOf(SampleConstants.typeFilter, "TEXT") == Some(10);
    assert QueryKey(SampleConstants, silk) == Ok("query");
    assert rs[..0] == [];
    assert RawValues(silk) == [Str("silk")];
    assert QueryParamsOf(SampleConstants, rs) == Ok([("query", [Str("silk")])]);
  }

  /** REDIRECT and PRODUCT examples: "/foo/bar" and "/shopping/dress-123";
      a missing redirect url renders as "undefined", a null slug as "null". */
  lemma RedirectAndProductExamples(
    buildSetFilters: QueryParams -> string,
    urlJoin: (string, Option<string>, string) -> string)
    ensures SearchRedirectUrl(SampleConstants, buildSetFilters, urlJoin,
              Some(SearchIntent(0, Defined("foo/bar"), Some([]))), "/shopping") == Ok(Some("/foo/bar"))
    ensures SearchRedirectUrl(SampleConstants, buildSetFilters, urlJoin,
              Some(SearchIntent(1, Undefined, Some([Resource(0, [FilterValue(Num(0), Defined("dress-123"))])]))),
              "/shopping") == Ok(Some("/shopping/dress-123"))
    ensures SearchRedirectUrl(SampleConstants, buildSetFilters, urlJoin,
              Some(SearchIntent(0, Undefined, Some([]))), "/shopping") == Ok(Some("/undefined"))
    ensures SearchRedirectUrl(SampleConstants, buildSetFilters, urlJoin,
              Some(SearchIntent(1, Undefined, Some([Resource(0, [FilterValue(Num(0), Null)])]))),
              "/shopping") == Ok(Some("/shopping/null"))
  {
    assert "/" + "foo/bar" == "/foo/bar";
    assert "/shopping" + "/" + "dress-123" == "/shopping/dress-123";
    assert "/" + "undefined" == "/undefined";
    assert "/shopping" + "/" + "null" == "/shopping/null";
  }
}
