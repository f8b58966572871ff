/** The reference application schema: business changes, the view they build, and the
    byte encoding whose hash identifies a request. */
module Reference {
  import opened Basics

  datatype Change =
    | PutPlace(id: Text, name: Text)
    | PutFeature(id: Text, placeId: Text, geojson: Text)
    | DeletePlace(id: Text)

  type Changes = cs: seq<Change> | |cs| < U64_LIMIT witness []

  datatype Feature = Feature(placeId: Text, geojson: Text)

  datatype View = View(places: map<Text, Text>, features: map<Text, Feature>)

  const EMPTY_VIEW := View(map[], map[])

  // ---------------------------------------------------------------- execution

  /** One statement. A feature naming an absent place violates the foreign key;
      deleting a place cascades to its features. */
  function ExecuteOne(v: View, c: Change): (r: Option<View>)
  {
    match c
    case PutPlace(id, name) => Some(v.(places := v.places[id := name]))
    case PutFeature(id, placeId, geojson) =>
      if placeId in v.places
      then Some(v.(features := v.features[id := Feature(placeId, geojson)]))
      else None
    case DeletePlace(id) =>
      Some(View(v.places - {id}, map f | f in v.features && v.features[f].placeId != id :: v.features[f]))
  }

  /** The ordered changes of a request, all or nothing. */
  function Execute(v: View, cs: seq<Change>): (r: Option<View>)
    decreases |cs|
  {
    if cs == [] then Some(v)
    else
      match ExecuteOne(v, cs[0])
      case None => None
      case Some(w) => Execute(w, cs[1..])
  }

  lemma {:induction false} ExecuteSnoc(v: View, cs: seq<Change>, c: Change)
    ensures Execute(v, cs + [c]) == match Execute(v, cs) case None => None case Some(w) => ExecuteOne(w, c)
    decreases |cs|
  {
    if cs == [] {
      assert cs + [c] == [c] && [c][1..] == [];
    } else {
      assert (cs + [c])[1..] == cs[1..] + [c];
      if ExecuteOne(v, cs[0]).Some? {
        ExecuteSnoc(ExecuteOne(v, cs[0]).value, cs[1..], c);
      }
    }
  }

  lemma {:induction false} ExecuteStops(v: View, cs: seq<Change>, k: nat)
    requires k <= |cs| && Execute(v, cs[..k]).None?
    ensures Execute(v, cs).None?
    decreases |cs| - k
  {
    if k < |cs| {
      assert cs[..k + 1] == cs[..k] + [cs[k]];
      ExecuteSnoc(v, cs[..k], cs[k]);
      ExecuteStops(v, cs, k + 1);
    } else {
      assert cs[..k] == cs;
    }
  }

  // ---------------------------------------------------------------- what a request means

  predicate NamesPlace(c: Change, id: Text) {
    !c.PutFeature? && c.id == id
  }

  /** The last change that names a place. */
  predicate LastNaming(cs: seq<Change>, id: Text, i: nat) {
    i < |cs| && NamesPlace(cs[i], id) && forall j :: i < j < |cs| ==> !NamesPlace(cs[j], id)
  }

  /** After the changes a place has this name: the last change naming the place gives it, or
      none names the place and it had the name before. */
  ghost predicate PlaceIs(v: View, cs: seq<Change>, id: Text, name: Text) {
    || (exists i: nat :: LastNaming(cs, id, i) && cs[i] == PutPlace(id, name))
    || ((forall i :: 0 <= i < |cs| ==> !NamesPlace(cs[i], id)) && id in v.places && v.places[id] == name)
  }

  predicate PutsFeature(c: Change, id: Text) {
    c.PutFeature? && c.id == id
  }

  predicate LastPut(cs: seq<Change>, id: Text, i: nat) {
    i < |cs| && PutsFeature(cs[i], id) && forall j :: i < j < |cs| ==> !PutsFeature(cs[j], id)
  }

  /** After the changes a feature has this content: that of the last change putting it, with
      its place not deleted since, or that of before, neither put again nor its place deleted. */
  ghost predicate FeatureIs(v: View, cs: seq<Change>, id: Text, f: Feature) {
    || (exists i: nat :: LastPut(cs, id, i) && cs[i] == PutFeature(id, f.placeId, f.geojson) && DeletePlace(f.placeId) !in cs[i..])
    || ((forall i :: 0 <= i < |cs| ==> !PutsFeature(cs[i], id)) && id in v.features && v.features[id] == f && DeletePlace(f.placeId) !in cs)
  }

  /** Some feature is put while its place does not exist. */
  ghost predicate Violates(v: View, cs: seq<Change>) {
    exists k :: 0 <= k < |cs| && cs[k].PutFeature? && forall name: Text :: !PlaceIs(v, cs[..k], cs[k].placeId, name)
  }

  /** A view is what a request makes of another. */
  ghost predicate Results(v: View, cs: seq<Change>, w: View) {
    && (forall id: Text, name: Text :: (id in w.places && w.places[id] == name) <==> PlaceIs(v, cs, id, name))
    && (forall id: Text, f: Feature :: (id in w.features && w.features[id] == f) <==> FeatureIs(v, cs, id, f))
  }

  lemma PlaceSnoc(v: View, cs: seq<Change>, c: Change, id: Text, name: Text)
    ensures PlaceIs(v, cs + [c], id, name) <==> if NamesPlace(c, id) then c == PutPlace(id, name) else PlaceIs(v, cs, id, name)
  {
    var all := cs + [c];
    assert forall i :: 0 <= i < |cs| ==> all[i] == cs[i];
    assert all[|cs|] == c;
    if NamesPlace(c, id) {
      assert LastNaming(all, id, |cs|);
    } else {
      assert forall i: nat :: LastNaming(all, id, i) <==> LastNaming(cs, id, i);
    }
  }

  lemma FeatureSnoc(v: View, cs: seq<Change>, c: Change, id: Text, f: Feature)
    ensures FeatureIs(v, cs + [c], id, f) <==>
              if PutsFeature(c, id) then c == PutFeature(id, f.placeId, f.geojson) else FeatureIs(v, cs, id, f) && c != DeletePlace(f.placeId)
  {
    var all := cs + [c];
    assert forall i :: 0 <= i < |cs| ==> all[i] == cs[i] && all[i..] == cs[i..] + [c];
    assert all[|cs|] == c && all[|cs|..] == [c];
    if PutsFeature(c, id) {
      assert LastPut(all, id, |cs|);
    } else {
      assert forall i: nat :: LastPut(all, id, i) <==> LastPut(cs, id, i);
    }
  }

  lemma ViolatesSnoc(v: View, cs: seq<Change>, c: Change)
    ensures Violates(v, cs + [c]) <==> Violates(v, cs) || (c.PutFeature? && forall name: Text :: !PlaceIs(v, cs, c.placeId, name))
  {
    hide PlaceIs;
    var all := cs + [c];
    assert forall k :: 0 <= k < |cs| ==> all[k] == cs[k] && all[..k] == cs[..k];
    assert all[|cs|] == c && all[..|cs|] == cs;
  }

  lemma ResultsSnoc(v: View, cs: seq<Change>, w: View, c: Change)
    requires Results(v, cs, w)
    ensures ExecuteOne(w, c).None? <==> c.PutFeature? && forall name: Text :: !PlaceIs(v, cs, c.placeId, name)
    ensures ExecuteOne(w, c).Some? ==> Results(v, cs + [c], ExecuteOne(w, c).value)
  {
    hide PlaceIs, FeatureIs;
    if c.PutFeature? && c.placeId in w.places {
      var name: Text := w.places[c.placeId];
      assert PlaceIs(v, cs, c.placeId, name);
    }
    if ExecuteOne(w, c).Some? {
      var u := ExecuteOne(w, c).value;
      forall id: Text, name: Text
        ensures (id in u.places && u.places[id] == name) <==> PlaceIs(v, cs + [c], id, name)
      {
        PlaceSnoc(v, cs, c, id, name);
      }
      forall id: Text, f: Feature
        ensures (id in u.features && u.features[id] == f) <==> FeatureIs(v, cs + [c], id, f)
      {
        FeatureSnoc(v, cs, c, id, f);
      }
    }
  }

  lemma NothingResults(v: View)
    ensures Results(v, [], v) && !Violates(v, [])
  {
    assert forall id: Text, name: Text :: PlaceIs(v, [], id, name) <==> id in v.places && v.places[id] == name;
    assert forall id: Text, f: Feature :: FeatureIs(v, [], id, f) <==> id in v.features && v.features[id] == f;
  }

  /** Executing a request fails exactly if it violates the foreign key, and otherwise gives
      the one view that the request describes. */
  lemma {:induction false} ExecuteMeans(v: View, cs: seq<Change>)
    ensures Execute(v, cs).None? <==> Violates(v, cs)
    ensures Execute(v, cs).Some? ==> Results(v, cs, Execute(v, cs).value)
    decreases |cs|
  {
    hide Results, Violates, ExecuteOne;
    if cs == [] {
      NothingResults(v);
    } else {
      var init, c := cs[..|cs| - 1], cs[|cs| - 1];
      assert cs == init + [c];
      ExecuteMeans(v, init);
      ExecuteSnoc(v, init, c);
      ViolatesSnoc(v, init, c);
      if Execute(v, init).Some? {
        ResultsSnoc(v, init, Execute(v, init).value, c);
      }
    }
  }

  /** Only one view is described. */
  lemma ResultsAreUnique(v: View, cs: seq<Change>, w: View, u: View)
    requires Results(v, cs, w) && Results(v, cs, u)
    ensures w == u
  {
    ResultsAgree(v, cs, w, u);
    ResultsAgree(v, cs, u, w);
    assert w.places == u.places && w.features == u.features;
  }

  lemma ResultsAgree(v: View, cs: seq<Change>, w: View, u: View)
    requires Results(v, cs, w) && Results(v, cs, u)
    ensures forall id: Text :: id in w.places ==> id in u.places && u.places[id] == w.places[id]
    ensures forall id: Text :: id in w.features ==> id in u.features && u.features[id] == w.features[id]
  {
    hide PlaceIs, FeatureIs;
    forall id: Text | id in w.places
      ensures id in u.places && u.places[id] == w.places[id]
    {
      var name: Text := w.places[id];
      assert PlaceIs(v, cs, id, name);
    }
    forall id: Text | id in w.features
      ensures id in u.features && u.features[id] == w.features[id]
    {
      var f: Feature := w.features[id];
      assert FeatureIs(v, cs, id, f);
    }
  }

  /** Run the statements of a request one after another. */
  method ExecuteAll(v: View, cs: seq<Change>) returns (r: Option<View>)
    ensures r == Execute(v, cs)
    ensures r.None? <==> Violates(v, cs)
    ensures r.Some? ==> Results(v, cs, r.value)
  {
    ExecuteMeans(v, cs);
    hide Results, Violates;
    var w, i := v, 0;
    assert cs[..0] == [];
    while i < |cs|
      invariant i <= |cs| && Execute(v, cs[..i]) == Some(w)
    {
      assert cs[..i + 1] == cs[..i] + [cs[i]];
      ExecuteSnoc(v, cs[..i], cs[i]);
      var next := ExecuteOne(w, cs[i]);
      if next.None? {
        ExecuteStops(v, cs, i + 1);
        return None;
      }
      w, i := next.value, i + 1;
    }
    assert cs[..i] == cs;
    r := Some(w);
  }

  predicate ForeignKeysHold(v: View) {
    forall f :: f in v.features ==> v.features[f].placeId in v.places
  }

  /** The foreign-key check after a request never fails on a view that passed it before. */
  lemma {:induction false} ExecuteKeepsForeignKeys(v: View, cs: seq<Change>)
    requires ForeignKeysHold(v)
    ensures Execute(v, cs).Some? ==> ForeignKeysHold(Execute(v, cs).value)
    decreases |cs|
  {
    if cs != [] && ExecuteOne(v, cs[0]).Some? {
      ExecuteKeepsForeignKeys(ExecuteOne(v, cs[0]).value, cs[1..]);
    }
  }

  // ---------------------------------------------------------------- request encoding

  function Pow256(k: nat): (r: nat)
    ensures r > 0
  {
    if k == 0 then 1 else 256 * Pow256(k - 1)
  }

  /** Big-endian bytes of the low `k` bytes of `n`. */
  function BigEndian(n: nat, k: nat): (r: seq<Byte>)
    ensures |r| == k
  {
    if k == 0 then [] else BigEndian(n / 256, k - 1) + [(n % 256) as Byte]
  }

  /** "proximiio-core-request-v1" and a terminating zero byte. */
  const DOMAIN: seq<Byte> :=
    [112, 114, 111, 120, 105, 109, 105, 105, 111, 45, 99, 111, 114, 101, 45,
     114, 101, 113, 117, 101, 115, 116, 45, 118, 49, 0]

  function EncodeText(s: Text): seq<Byte> {
    BigEndian(|s|, 8) + s
  }

  function EncodeChange(c: Change): (r: seq<Byte>)
    ensures r != []
  {
    match c
    case PutPlace(id, name) => [1] + EncodeText(id) + EncodeText(name)
    case PutFeature(id, placeId, geojson) => [2] + EncodeText(id) + EncodeText(placeId) + EncodeText(geojson)
    case DeletePlace(id) => [3] + EncodeText(id)
  }

  function EncodeAll(cs: seq<Change>): seq<Byte> {
    if cs == [] then [] else EncodeChange(cs[0]) + EncodeAll(cs[1..])
  }

  /** The number of changes, then each change in order. */
  function Framed(cs: seq<Change>): seq<Byte> {
    BigEndian(|cs|, 8) + EncodeAll(cs)
  }

  function Encode(cs: Changes): seq<Byte> {
    DOMAIN + Framed(cs)
  }

  /** SHA-256 is taken as ideal. The hash of Encode(request) is represented by the request
      itself, which FingerprintIdentifiesRequest justifies. */
  datatype Fingerprint = HashOf(request: Changes)

  /** What one change feeds the hasher, piece by piece. */
  method Feed(fed: seq<Byte>, c: Change) returns (out: seq<Byte>)
    ensures out == fed + EncodeChange(c)
  {
    match c {
      case PutPlace(id, name) =>
        out := fed + [1];
        out := out + EncodeText(id);
        out := out + EncodeText(name);
      case PutFeature(id, placeId, geojson) =>
        out := fed + [2];
        out := out + EncodeText(id);
        out := out + EncodeText(placeId);
        out := out + EncodeText(geojson);
      case DeletePlace(id) =>
        out := fed + [3];
        out := out + EncodeText(id);
    }
  }

  lemma Associative(a: seq<Byte>, b: seq<Byte>, c: seq<Byte>)
    ensures a + b + c == a + (b + c)
  {
  }

  lemma NextChange(fed: seq<Byte>, cs: seq<Change>, i: nat)
    requires i < |cs|
    ensures fed + EncodeAll(cs[i..]) == (fed + EncodeChange(cs[i])) + EncodeAll(cs[i + 1..])
  {
    assert cs[i..][1..] == cs[i + 1..];
    Associative(fed, EncodeChange(cs[i]), EncodeAll(cs[i + 1..]));
  }

  /** The count and the changes fed one by one after the domain tag. */
  method FeedAll(domain: seq<Byte>, cs: seq<Change>) returns (fed: seq<Byte>)
    ensures fed == domain + Framed(cs)
  {
    fed := domain + BigEndian(|cs|, 8);
    var i := 0;
    while i < |cs|
      invariant 0 <= i <= |cs|
      invariant fed + EncodeAll(cs[i..]) == domain + Framed(cs)
    {
      NextChange(fed, cs, i);
      fed := Feed(fed, cs[i]);
      i := i + 1;
    }
  }

  /** The bytes the adapter hashes. */
  method RequestBytes(cs: Changes) returns (fed: seq<Byte>)
    ensures fed == Encode(cs)
  {
    fed := FeedAll(DOMAIN, cs);
  }

  lemma {:induction false} BigEndianInjective(n: nat, m: nat, k: nat)
    requires n < Pow256(k) && m < Pow256(k)
    requires BigEndian(n, k) == BigEndian(m, k)
    ensures n == m
  {
    if k > 0 {
      var a, b := BigEndian(n, k), BigEndian(m, k);
      assert a[..k - 1] == BigEndian(n / 256, k - 1) && b[..k - 1] == BigEndian(m / 256, k - 1);
      assert a[k - 1] == (n % 256) as Byte && b[k - 1] == (m % 256) as Byte;
      BigEndianInjective(n / 256, m / 256, k - 1);
    }
  }

  lemma Pow256Eight()
    ensures Pow256(8) == U64_LIMIT
  {
    assert Pow256(2) == 65536;
    assert Pow256(4) == 65536 * 65536;
    assert Pow256(6) == 65536 * 65536 * 65536;
  }

  lemma SplitConcat(a: seq<Byte>, x: seq<Byte>, b: seq<Byte>, y: seq<Byte>)
    requires a + x == b + y && |a| == |b|
    ensures a == b && x == y
  {
    assert a == (a + x)[..|a|] && b == (b + y)[..|b|];
    assert x == (a + x)[|a|..] && y == (b + y)[|b|..];
  }

  /** A length-prefixed text at the front of a stream determines itself and the rest. */
  lemma TextSplits(a: Text, x: seq<Byte>, b: Text, y: seq<Byte>)
    requires EncodeText(a) + x == EncodeText(b) + y
    ensures a == b && x == y
  {
    assert EncodeText(a) + x == BigEndian(|a|, 8) + (a + x);
    assert EncodeText(b) + y == BigEndian(|b|, 8) + (b + y);
    SplitConcat(BigEndian(|a|, 8), a + x, BigEndian(|b|, 8), b + y);
    Pow256Eight();
    BigEndianInjective(|a|, |b|, 8);
    SplitConcat(a, x, b, y);
  }

  function Tag(c: Change): Byte {
    match c case PutPlace(_, _) => 1 case PutFeature(_, _, _) => 2 case DeletePlace(_) => 3
  }

  function Fields(c: Change): seq<Text> {
    match c
    case PutPlace(id, name) => [id, name]
    case PutFeature(id, placeId, geojson) => [id, placeId, geojson]
    case DeletePlace(id) => [id]
  }

  function EncodeTexts(ts: seq<Text>): seq<Byte> {
    if ts == [] then [] else EncodeText(ts[0]) + EncodeTexts(ts[1..])
  }

  lemma ChangeShape(c: Change)
    ensures EncodeChange(c) == [Tag(c)] + EncodeTexts(Fields(c))
  {
    match c {
      case PutPlace(id, name) =>
        assert [id, name][1..] == [name];
        assert EncodeTexts([name]) == EncodeText(name) + [];
      case PutFeature(id, placeId, geojson) =>
        assert [id, placeId, geojson][1..] == [placeId, geojson];
        assert [placeId, geojson][1..] == [geojson];
        assert EncodeTexts([geojson]) == EncodeText(geojson) + [];
      case DeletePlace(id) =>
        assert EncodeTexts([id]) == EncodeText(id) + [];
    }
  }

  lemma {:induction false} TextsSplit(a: seq<Text>, x: seq<Byte>, b: seq<Text>, y: seq<Byte>)
    requires |a| == |b| && EncodeTexts(a) + x == EncodeTexts(b) + y
    ensures a == b && x == y
  {
    if a == [] {
      SplitConcat([], x, [], y);
    } else {
      Associative(EncodeText(a[0]), EncodeTexts(a[1..]), x);
      Associative(EncodeText(b[0]), EncodeTexts(b[1..]), y);
      TextSplits(a[0], EncodeTexts(a[1..]) + x, b[0], EncodeTexts(b[1..]) + y);
      TextsSplit(a[1..], x, b[1..], y);
      assert a == [a[0]] + a[1..] && b == [b[0]] + b[1..];
    }
  }

  lemma SameShape(a: Change, b: Change)
    requires Tag(a) == Tag(b)
    ensures |Fields(a)| == |Fields(b)|
  {
  }

  lemma SameTagAndFields(a: Change, b: Change)
    requires Tag(a) == Tag(b) && Fields(a) == Fields(b)
    ensures a == b
  {
    match a {
      case PutPlace(id, name) => assert Fields(a)[0] == Fields(b)[0] && Fields(a)[1] == Fields(b)[1];
      case PutFeature(id, placeId, geojson) =>
        assert Fields(a)[0] == Fields(b)[0] && Fields(a)[1] == Fields(b)[1] && Fields(a)[2] == Fields(b)[2];
      case DeletePlace(id) => assert Fields(a)[0] == Fields(b)[0];
    }
  }

  lemma ChangeSplits(a: Change, x: seq<Byte>, b: Change, y: seq<Byte>)
    requires EncodeChange(a) + x == EncodeChange(b) + y
    ensures a == b && x == y
  {
    ChangeShape(a);
    ChangeShape(b);
    var p, q := EncodeTexts(Fields(a)), EncodeTexts(Fields(b));
    Associative([Tag(a)], p, x);
    Associative([Tag(b)], q, y);
    SplitConcat([Tag(a)], p + x, [Tag(b)], q + y);
    assert [Tag(a)][0] == [Tag(b)][0];
    SameShape(a, b);
    TextsSplit(Fields(a), x, Fields(b), y);
    SameTagAndFields(a, b);
  }

  lemma {:induction false} AllInjective(a: seq<Change>, b: seq<Change>)
    requires |a| == |b| && EncodeAll(a) == EncodeAll(b)
    ensures a == b
  {
    if a != [] {
      ChangeSplits(a[0], EncodeAll(a[1..]), b[0], EncodeAll(b[1..]));
      AllInjective(a[1..], b[1..]);
      assert a == [a[0]] + a[1..] && b == [b[0]] + b[1..];
    }
  }

  lemma FramedInjective(domain: seq<Byte>, a: Changes, b: Changes)
    requires domain + Framed(a) == domain + Framed(b)
    ensures a == b
  {
    SplitConcat(domain, Framed(a), domain, Framed(b));
    SplitConcat(BigEndian(|a|, 8), EncodeAll(a), BigEndian(|b|, 8), EncodeAll(b));
    Pow256Eight();
    BigEndianInjective(|a|, |b|, 8);
    AllInjective(a, b);
  }

  /** The encoding is uniquely decodable: two requests are hashed from the same bytes
      exactly when their ordered changes are the same. */
  lemma FingerprintIdentifiesRequest(a: Changes, b: Changes)
    ensures Encode(a) == Encode(b) <==> a == b
  {
    if Encode(a) == Encode(b) {
      FramedInjective(DOMAIN, a, b);
    }
  }
}
