/**
 * The price feed: the coin registry built from configuration, the snapshot of prices, and the
 * conversion of coin amounts to microUSD. Prices are exact reals until they are rounded.
 */
module Pricing {
  import opened Common

  type CoinType = string

  type Positive = r: real | r > 0.0 witness 1.0

  datatype CoinSpec = CoinSpec(decimals: nat, gecko: Option<string>, usd: Option<Positive>)
  {
    predicate Polled() { gecko.Some? && gecko.value != "" }
  }

  type Registry = map<CoinType, CoinSpec>

  const SUI := "0x2::sui::SUI"
  const DEFAULT_DECIMALS: nat := 9
  const SUI_USD: Positive := 1.0
  const IKA_USD: Positive := 0.05

  function Get<K, V>(m: map<K, V>, k: K): Option<V> { if k in m then Some(m[k]) else None }

  // ---------------------------------------------------------------------------
  // Building the registry
  // ---------------------------------------------------------------------------

  /** One entry of the environment's maps; the key is as the operator wrote it. */
  datatype Override =
    | Decimals(coin: string, decimals: nat)
    | Gecko(coin: string, id: string)
    | Usd(coin: string, usd: Positive)

  /** `normalizeStructTag`. */
  type Normalize = string -> CoinType

  datatype Config = Config(norm: Normalize, decimals: seq<(string, nat)>, gecko: seq<(string, string)>, usd: seq<(string, Positive)>)
  {
    function Overrides(): seq<Override> { AllDecimals(decimals) + AllGecko(gecko) + AllUsd(usd) }
  }

  function AllDecimals(es: seq<(string, nat)>): seq<Override> {
    seq(|es|, i requires 0 <= i < |es| => Decimals(es[i].0, es[i].1))
  }

  function AllGecko(es: seq<(string, string)>): seq<Override> {
    seq(|es|, i requires 0 <= i < |es| => Gecko(es[i].0, es[i].1))
  }

  function AllUsd(es: seq<(string, Positive)>): seq<Override> {
    seq(|es|, i requires 0 <= i < |es| => Usd(es[i].0, es[i].1))
  }

  function Base(norm: Normalize, ika: Option<string>): Registry {
    var sui := map[norm(SUI) := CoinSpec(DEFAULT_DECIMALS, None, Some(SUI_USD))];
    if ika.Some? && ika.value != "" then sui[norm(ika.value) := CoinSpec(DEFAULT_DECIMALS, None, Some(IKA_USD))] else sui
  }

  function Apply(reg: Registry, norm: Normalize, o: Override): Registry {
    var ct := norm(o.coin);
    var prev := Get(reg, ct);
    var was := if prev.Some? then prev.value else CoinSpec(DEFAULT_DECIMALS, None, None);
    reg[ct :=
      match o
      case Decimals(_, d) => was.(decimals := d)
      case Gecko(_, id) => was.(gecko := Some(id))
      case Usd(_, u) => was.(usd := Some(u))]
  }

  function ApplyAll(reg: Registry, norm: Normalize, os: seq<Override>): Registry {
    if os == [] then reg else Apply(ApplyAll(reg, norm, os[..|os| - 1]), norm, os[|os| - 1])
  }

  lemma ApplyNext(reg: Registry, norm: Normalize, os: seq<Override>, i: nat)
    requires i < |os|
    ensures ApplyAll(reg, norm, os[..i + 1]) == Apply(ApplyAll(reg, norm, os[..i]), norm, os[i])
  {
    assert os[..i + 1][..i] == os[..i];
  }

  lemma {:induction false} ApplyConcat(reg: Registry, norm: Normalize, os: seq<Override>, ps: seq<Override>)
    ensures ApplyAll(reg, norm, os + ps) == ApplyAll(ApplyAll(reg, norm, os), norm, ps)
    decreases |ps|
  {
    if ps == [] {
      assert os + ps == os;
    } else {
      var last := |ps| - 1;
      ApplyConcat(reg, norm, os, ps[..last]);
      var all := os + ps;
      assert all[..|all| - 1] == os + ps[..last] && all[|all| - 1] == ps[last];
    }
  }

  predicate SameKind(o: Override, p: Override) {
    (o.Decimals? <==> p.Decimals?) && (o.Gecko? <==> p.Gecko?) && (o.Usd? <==> p.Usd?)
  }

  /** The last override of each kind whose key normalises to `ct`. */
  datatype Chosen = Chosen(decimals: Option<nat>, gecko: Option<string>, usd: Option<Positive>)

  function Choose(norm: Normalize, os: seq<Override>, ct: CoinType): Chosen {
    if os == [] then Chosen(None, None, None)
    else
      var rest := Choose(norm, os[..|os| - 1], ct);
      var last := os[|os| - 1];
      if norm(last.coin) != ct then rest
      else
        match last
        case Decimals(_, d) => rest.(decimals := Some(d))
        case Gecko(_, id) => rest.(gecko := Some(id))
        case Usd(_, u) => rest.(usd := Some(u))
  }

  function Or<T>(o: Option<T>, or: Option<T>): Option<T> { if o.Some? then o else or }

  /** The closed form: each field comes from its own override, else from the built-in coin, else a default. */
  function ClosedForm(base: Option<CoinSpec>, c: Chosen): Option<CoinSpec> {
    if base.None? && c == Chosen(None, None, None) then None
    else
      var built := if base.Some? then base.value else CoinSpec(DEFAULT_DECIMALS, None, None);
      Some(CoinSpec(Or(c.decimals, Some(built.decimals)).value, Or(c.gecko, built.gecko), Or(c.usd, built.usd)))
  }

  /** Overrides in any order, of any kinds mixed, build the closed form. */
  lemma {:induction false} RegistryIsClosedForm(reg: Registry, norm: Normalize, os: seq<Override>, ct: CoinType)
    ensures Get(ApplyAll(reg, norm, os), ct) == ClosedForm(Get(reg, ct), Choose(norm, os, ct))
  {
    if os != [] { RegistryIsClosedForm(reg, norm, os[..|os| - 1], ct); }
  }

  /** No two overrides of one kind name the same coin. */
  ghost predicate Distinct(norm: Normalize, os: seq<Override>) {
    forall i, j :: 0 <= i < j < |os| && SameKind(os[i], os[j]) ==> norm(os[i].coin) != norm(os[j].coin)
  }

  /** `c` carries the value of `o`. */
  predicate Holds(c: Chosen, o: Override) {
    match o
    case Decimals(_, d) => c.decimals == Some(d)
    case Gecko(_, id) => c.gecko == Some(id)
    case Usd(_, u) => c.usd == Some(u)
  }

  predicate Has(c: Chosen, like: Override) {
    match like
    case Decimals(_, _) => c.decimals.Some?
    case Gecko(_, _) => c.gecko.Some?
    case Usd(_, _) => c.usd.Some?
  }

  lemma {:induction false} ChosenHasSource(norm: Normalize, os: seq<Override>, ct: CoinType, like: Override) returns (o: Override)
    requires Has(Choose(norm, os, ct), like)
    ensures o in os && SameKind(o, like) && norm(o.coin) == ct && Holds(Choose(norm, os, ct), o)
  {
    o := os[|os| - 1];
    if norm(o.coin) != ct || !SameKind(o, like) {
      o := ChosenHasSource(norm, os[..|os| - 1], ct, like);
    }
  }

  lemma {:induction false} MemberIsChosen(norm: Normalize, os: seq<Override>, i: nat)
    requires Distinct(norm, os) && i < |os|
    ensures Holds(Choose(norm, os, norm(os[i].coin)), os[i])
  {
    if i < |os| - 1 { MemberIsChosen(norm, os[..|os| - 1], i); }
  }

  lemma ChoiceFollows(norm: Normalize, os: seq<Override>, ps: seq<Override>, ct: CoinType, like: Override)
    requires Distinct(norm, ps) && forall o :: o in os ==> o in ps
    requires Has(Choose(norm, os, ct), like)
    ensures Has(Choose(norm, ps, ct), like)
    ensures forall o :: SameKind(o, like) && Holds(Choose(norm, os, ct), o) ==> Holds(Choose(norm, ps, ct), o)
  {
    var o := ChosenHasSource(norm, os, ct, like);
    var i :| 0 <= i < |ps| && ps[i] == o;
    MemberIsChosen(norm, ps, i);
  }

  lemma SameChoice(norm: Normalize, os: seq<Override>, ps: seq<Override>, ct: CoinType)
    requires Distinct(norm, os) && Distinct(norm, ps) && forall o :: o in os <==> o in ps
    ensures Choose(norm, os, ct) == Choose(norm, ps, ct)
  {
    var c, d := Choose(norm, os, ct), Choose(norm, ps, ct);
    var likes := [Decimals(ct, 0), Gecko(ct, ""), Usd(ct, SUI_USD)];
    forall like | like in likes
      ensures Has(c, like) <==> Has(d, like)
      ensures Has(c, like) ==> forall o :: SameKind(o, like) && Holds(c, o) ==> Holds(d, o)
    {
      if Has(c, like) { ChoiceFollows(norm, os, ps, ct, like); }
      if Has(d, like) { ChoiceFollows(norm, ps, os, ct, like); }
    }
    assert likes[0] in likes && likes[1] in likes && likes[2] in likes;
    if c.decimals.Some? { assert Holds(c, Decimals(ct, c.decimals.value)); }
    if c.gecko.Some? { assert Holds(c, Gecko(ct, c.gecko.value)); }
    if c.usd.Some? { assert Holds(c, Usd(ct, c.usd.value)); }
  }

  /** The registry does not depend on the order of entries or of the passes, for keys distinct after normalising. */
  lemma OrderDoesNotMatter(reg: Registry, norm: Normalize, os: seq<Override>, ps: seq<Override>)
    requires Distinct(norm, os) && Distinct(norm, ps) && forall o :: o in os <==> o in ps
    ensures ApplyAll(reg, norm, os) == ApplyAll(reg, norm, ps)
  {
    var a, b := ApplyAll(reg, norm, os), ApplyAll(reg, norm, ps);
    forall ct ensures Get(a, ct) == Get(b, ct) {
      SameChoice(norm, os, ps, ct);
      RegistryIsClosedForm(reg, norm, os, ct);
      RegistryIsClosedForm(reg, norm, ps, ct);
    }
    SameMap(a, b);
  }

  lemma SameMap<K(!new), V>(a: map<K, V>, b: map<K, V>)
    requires forall k :: Get(a, k) == Get(b, k)
    ensures a == b
  {
    forall k ensures k in a <==> k in b { assert Get(a, k) == Get(b, k); }
    forall k | k in a ensures a[k] == b[k] { assert Get(a, k) == Get(b, k); }
  }

  // ---------------------------------------------------------------------------
  // Prices
  // ---------------------------------------------------------------------------

  /** `Math.round` of a USD price in millionths. */
  function MicroUsd(usd: real): int { (usd * 1000000.0 + 0.5).Floor }

  /** A price in microUSD is the nearest whole number to a million times the price, halves up. */
  lemma MicroUsdIsNearest(usd: real)
    ensures MicroUsd(usd) as real - 0.5 <= usd * 1000000.0 < MicroUsd(usd) as real + 0.5
  {
    var x := usd * 1000000.0 + 0.5;
    assert x.Floor as real <= x < x.Floor as real + 1.0;
  }

  type Body = map<string, real>   // finite numbers of the feed's answer, by id

  /** A polled price within the deviation band of the static one, or unchecked when there is none. */
  predicate Accepts(spec: CoinSpec, max: Positive, usd: real) {
    && usd > 0.0
    && (spec.usd.None? || (1.0 / max <= usd / spec.usd.value <= max))
  }

  function Hit(spec: CoinSpec, max: Positive, body: Body): Option<real> {
    if spec.Polled() && spec.gecko.value in body && Accepts(spec, max, body[spec.gecko.value]) then
      Some(body[spec.gecko.value])
    else None
  }

  function Static(spec: CoinSpec): Option<int> { if spec.usd.Some? then Some(MicroUsd(spec.usd.value)) else None }

  /** The price a coin has after a refresh: its feed price when accepted, else its static price. */
  function PriceAfter(spec: CoinSpec, max: Positive, body: Body): Option<int> {
    match Hit(spec, max, body)
    case Some(usd) => Some(MicroUsd(usd))
    case None => Static(spec)
  }

  ghost predicate Priced(prices: map<CoinType, int>, reg: Registry, max: Positive, body: Body) {
    && prices.Keys <= reg.Keys
    && forall ct :: ct in reg ==> Get(prices, ct) == PriceAfter(reg[ct], max, body)
  }

  datatype Source = Feed | Fallback | Mixed

  function Work(reg: Registry): set<CoinType> { set ct | ct in reg && reg[ct].Polled() }

  function Hits(reg: Registry, max: Positive, body: Body): set<CoinType> {
    set ct | ct in reg && Hit(reg[ct], max, body).Some?
  }

  class PriceFeed {
    const max: Positive
    var registry: Registry
    var prices: map<CoinType, int>
    var lastSuccess: int     // 0: never
    var source: Source

    constructor (max: Positive)
      ensures this.max == max && registry == map[] && prices == map[] && lastSuccess == 0 && source == Fallback
    {
      this.max := max;
      registry, prices, lastSuccess, source := map[], map[], 0, Fallback;
    }

    method OverrideDecimals(norm: Normalize, entries: seq<(string, nat)>)
      modifies this`registry
      ensures registry == ApplyAll(old(registry), norm, AllDecimals(entries))
    {
      ghost var os := AllDecimals(entries);
      for i := 0 to |entries|
        invariant registry == ApplyAll(old(registry), norm, os[..i])
      {
        ApplyNext(old(registry), norm, os, i);
        registry := Apply(registry, norm, Decimals(entries[i].0, entries[i].1));
      }
      assert os[..|entries|] == os;
    }

    method OverrideGecko(norm: Normalize, entries: seq<(string, string)>)
      modifies this`registry
      ensures registry == ApplyAll(old(registry), norm, AllGecko(entries))
    {
      ghost var os := AllGecko(entries);
      for i := 0 to |entries|
        invariant registry == ApplyAll(old(registry), norm, os[..i])
      {
        ApplyNext(old(registry), norm, os, i);
        registry := Apply(registry, norm, Gecko(entries[i].0, entries[i].1));
      }
      assert os[..|entries|] == os;
    }

    method OverrideUsd(norm: Normalize, entries: seq<(string, Positive)>)
      modifies this`registry
      ensures registry == ApplyAll(old(registry), norm, AllUsd(entries))
    {
      ghost var os := AllUsd(entries);
      for i := 0 to |entries|
        invariant registry == ApplyAll(old(registry), norm, os[..i])
      {
        ApplyNext(old(registry), norm, os, i);
        registry := Apply(registry, norm, Usd(entries[i].0, entries[i].1));
      }
      assert os[..|entries|] == os;
    }

    /** Built-in coins, then three passes over the environment's maps. */
    method BuildRegistry(config: Config, ika: Option<string>)
      modifies this`registry
      ensures registry == ApplyAll(Base(config.norm, ika), config.norm, config.Overrides())
    {
      registry := Base(config.norm, ika);
      OverrideDecimals(config.norm, config.decimals);
      OverrideGecko(config.norm, config.gecko);
      OverrideUsd(config.norm, config.usd);
      ApplyConcat(Base(config.norm, ika), config.norm, AllDecimals(config.decimals), AllGecko(config.gecko));
      ApplyConcat(Base(config.norm, ika), config.norm,
                  AllDecimals(config.decimals) + AllGecko(config.gecko), AllUsd(config.usd));
    }

    method StaticPrices() returns (seed: map<CoinType, int>)
      ensures seed.Keys <= registry.Keys
      ensures forall ct :: ct in registry ==> Get(seed, ct) == Static(registry[ct])
    {
      seed := map[];
      var todo := registry.Keys;
      while todo != {}
        invariant seed.Keys <= registry.Keys && todo <= registry.Keys
        invariant forall ct :: ct in registry && ct !in todo ==> Get(seed, ct) == Static(registry[ct])
        invariant forall ct :: ct in todo ==> ct !in seed
      {
        var ct :| ct in todo;
        if registry[ct].usd.Some? {
          seed := seed[ct := MicroUsd(registry[ct].usd.value)];
        }
        todo := todo - {ct};
      }
    }

    /** Overwrite the seeded prices with every feed price that is accepted. */
    method FeedPrices(seed: map<CoinType, int>, body: Body) returns (next: map<CoinType, int>, hits: set<CoinType>)
      requires seed.Keys <= registry.Keys
      requires forall ct :: ct in registry ==> Get(seed, ct) == Static(registry[ct])
      ensures Priced(next, registry, max, body) && hits == Hits(registry, max, body)
    {
      next, hits := seed, {};
      var todo := Work(registry);
      while todo != {}
        invariant todo <= registry.Keys && next.Keys <= registry.Keys
        invariant forall ct :: ct in hits <==> ct in registry && Hit(registry[ct], max, body).Some? && ct !in todo
        invariant forall ct :: ct in registry && ct !in todo ==> Get(next, ct) == PriceAfter(registry[ct], max, body)
        invariant forall ct :: ct in todo ==> registry[ct].Polled() && Get(next, ct) == Static(registry[ct])
      {
        var ct :| ct in todo;
        var hit := Hit(registry[ct], max, body);
        todo := todo - {ct};
        if hit.Some? {
          next := next[ct := MicroUsd(hit.value)];
          hits := hits + {ct};
        }
      }
    }

    /** A failed or refused request leaves the snapshot alone. */
    method RefreshNow(answer: Option<Body>, now: int) returns (ok: bool)
      modifies this`prices, this`lastSuccess, this`source
      ensures ok <==> answer.Some? || Work(registry) == {}
      ensures !ok ==> prices == old(prices) && lastSuccess == old(lastSuccess) && source == old(source)
      ensures ok ==> Priced(prices, registry, max, if answer.Some? then answer.value else map[])
      ensures ok ==>
        var hits := if answer.Some? then Hits(registry, max, answer.value) else {};
        && lastSuccess == (if hits != {} then now else old(lastSuccess))
        && (source == Fallback <==> hits == {})
        && (source == Feed <==> hits != {} && hits == Work(registry))
    {
      var work := Work(registry);
      if work == {} {
        prices := StaticPrices();
        source := Fallback;
        NothingPolled(registry, max, if answer.Some? then answer.value else map[]);
        return true;
      }
      if answer.None? {
        return false;
      }
      var seed := StaticPrices();
      var next, hits := FeedPrices(seed, answer.value);
      source := if |hits| == 0 then Fallback else if |hits| == |work| then Feed else Mixed;
      prices := next;
      lastSuccess := if |hits| > 0 then now else lastSuccess;
      SameSize(hits, work);
      return true;
    }
  }

  lemma NothingPolled(reg: Registry, max: Positive, body: Body)
    requires Work(reg) == {}
    ensures Hits(reg, max, body) == {}
    ensures forall ct :: ct in reg ==> PriceAfter(reg[ct], max, body) == Static(reg[ct])
  {
    forall ct | ct in reg ensures Hit(reg[ct], max, body).None? {
      assert ct !in Work(reg);
    }
  }

  lemma SameSize<T>(a: set<T>, b: set<T>)
    requires a <= b
    ensures |a| == |b| <==> a == b
  {
    if a != b {
      var x :| x in b && x !in a;
      assert b == a + (b - a) && x in b - a;
      assert |b| == |a| + |b - a|;
    }
  }

  // ---------------------------------------------------------------------------
  // Runs of the feed
  // ---------------------------------------------------------------------------

  lemma MicroUsdMonotone(a: real, b: real)
    requires a <= b
    ensures MicroUsd(a) <= MicroUsd(b)
  {
    var x, y := a * 1000000.0 + 0.5, b * 1000000.0 + 0.5;
    assert x <= y;
    assert x.Floor as real <= y < y.Floor as real + 1.0;
  }

  lemma RatioBand(usd: real, static_: Positive, max: Positive)
    requires 1.0 / max <= usd / static_ <= max
    ensures static_ / max <= usd <= static_ * max
  {
    var ratio := usd / static_;
    assert usd == ratio * static_;
    assert ratio * static_ <= max * static_;
    assert (1.0 / max) * static_ <= ratio * static_;
    assert (1.0 / max) * static_ == static_ / max;
  }

  /** The band a static price allows; a bound below 1 allows nothing but the static price itself. */
  predicate InBand(static_: Positive, max: Positive, price: int) {
    if max < 1.0 then price == MicroUsd(static_)
    else MicroUsd(static_ / max) <= price <= MicroUsd(static_ * max)
  }

  lemma Undivide(a: real, b: Positive)
    ensures a / b * b == a
  {}

  lemma RealFactorOrder(a: real, b: real, c: Positive)
    ensures a <= b ==> a * c <= b * c
  {}

  /** A bound below 1 leaves no ratio inside the band. */
  lemma NarrowBoundRejectsAll(spec: CoinSpec, max: Positive, usd: real)
    requires spec.usd.Some? && max < 1.0
    ensures !Accepts(spec, max, usd)
  {
    var r := 1.0 / max;
    Undivide(1.0, max);
    RealFactorOrder(r, max, max);
    RealFactorOrder(max, 1.0, max);
  }

  /** The feed can price a coin with a static price exactly when the bound is at least 1; the static price itself is then accepted. */
  lemma FeedIsUsableExactly(spec: CoinSpec, max: Positive)
    requires spec.usd.Some?
    ensures (exists usd :: Accepts(spec, max, usd)) <==> max >= 1.0
  {
    if max >= 1.0 {
      var s := spec.usd.value;
      Undivide(1.0, max);
      RealFactorOrder(1.0, max, 1.0 / max);
      Undivide(s, s);
      assert s / s == 1.0;
      assert Accepts(spec, max, s);
    } else {
      forall usd ensures !Accepts(spec, max, usd) { NarrowBoundRejectsAll(spec, max, usd); }
    }
  }

  lemma StaticIsInside(s: Positive, max: Positive)
    requires max >= 1.0
    ensures s / max <= s <= s * max
  {
    Undivide(s, max);
    RealFactorOrder(1.0, max, s / max);
    RealFactorOrder(1.0, max, s);
  }

  /**
   * Which price a refresh leaves: the feed's own, rounded, exactly when the coin is polled, the
   * answer has a positive price under its id, and that lies within the bound of the static price,
   * if there is one; else the static price, if there is one.
   */
  lemma RefreshedPrice(spec: CoinSpec, max: Positive, body: Body)
    ensures var feed := if spec.gecko.Some? && spec.gecko.value != "" && spec.gecko.value in body then Some(body[spec.gecko.value]) else None;
            var used := && feed.Some? && feed.value > 0.0
                        && (spec.usd.None? || (feed.value / spec.usd.value <= max && feed.value / spec.usd.value >= 1.0 / max));
            PriceAfter(spec, max, body) ==
              if used then Some(MicroUsd(feed.value))
              else if spec.usd.Some? then Some(MicroUsd(spec.usd.value))
              else None
  {
  }

  /** With nothing configured: SUI at nine decimals and one dollar, and IKA, once its type is known, at nine and five cents. */
  lemma BuiltInCoins(norm: Normalize, ika: string)
    requires ika != "" && norm(ika) != norm("0x2::sui::SUI")
    ensures ApplyAll(Base(norm, None), norm, []) == map[norm("0x2::sui::SUI") := CoinSpec(9, None, Some(1.0))]
    ensures ApplyAll(Base(norm, Some(ika)), norm, [])
            == map[norm("0x2::sui::SUI") := CoinSpec(9, None, Some(1.0)), norm(ika) := CoinSpec(9, None, Some(0.05))]
  {
  }

  lemma RefreshIsInBand(spec: CoinSpec, max: Positive, body: Body)
    requires spec.usd.Some?
    ensures PriceAfter(spec, max, body).Some? && InBand(spec.usd.value, max, PriceAfter(spec, max, body).value)
  {
    var s := spec.usd.value;
    if max < 1.0 {
      forall usd ensures !Accepts(spec, max, usd) { NarrowBoundRejectsAll(spec, max, usd); }
    } else if Hit(spec, max, body).Some? {
      var usd := Hit(spec, max, body).value;
      RatioBand(usd, s, max);
      MicroUsdMonotone(s / max, usd);
      MicroUsdMonotone(usd, s * max);
    } else {
      StaticIsInside(s, max);
      MicroUsdMonotone(s / max, s);
      MicroUsdMonotone(s, s * max);
    }
  }

  function StaticPricesOf(reg: Registry): map<CoinType, int> {
    map ct | ct in reg && Static(reg[ct]).Some? :: Static(reg[ct]).value
  }

  function Refresh(prices: map<CoinType, int>, reg: Registry, max: Positive, answer: Option<Body>): map<CoinType, int> {
    if Work(reg) != {} && answer.None? then prices
    else
      var body := if answer.Some? then answer.value else map[];
      map ct | ct in reg && PriceAfter(reg[ct], max, body).Some? :: PriceAfter(reg[ct], max, body).value
  }

  /** `Priced` leaves one price map: what RefreshNow stores is Refresh. */
  lemma PricedIsRefresh(prices: map<CoinType, int>, was: map<CoinType, int>, reg: Registry, max: Positive, answer: Option<Body>)
    requires answer.Some? || Work(reg) == {}
    requires Priced(prices, reg, max, if answer.Some? then answer.value else map[])
    ensures prices == Refresh(was, reg, max, answer)
  {
    var after := Refresh(was, reg, max, answer);
    forall ct ensures Get(prices, ct) == Get(after, ct) {}
    SameMap(prices, after);
  }

  /** Any number of refreshes, answered or not, from the snapshot taken at boot. */
  function Feeds(reg: Registry, max: Positive, answers: seq<Option<Body>>): map<CoinType, int> {
    if answers == [] then StaticPricesOf(reg)
    else Refresh(Feeds(reg, max, answers[..|answers| - 1]), reg, max, answers[|answers| - 1])
  }

  /** After any run, a coin with a static price has a price, and it lies in that price's band. */
  lemma {:induction false} PricesStayInBand(reg: Registry, max: Positive, answers: seq<Option<Body>>, ct: CoinType)
    requires ct in reg && reg[ct].usd.Some?
    ensures ct in Feeds(reg, max, answers) && InBand(reg[ct].usd.value, max, Feeds(reg, max, answers)[ct])
  {
    var s := reg[ct].usd.value;
    RefreshIsInBand(reg[ct].(gecko := None), max, map[]);
    if answers != [] {
      var answer := answers[|answers| - 1];
      PricesStayInBand(reg, max, answers[..|answers| - 1], ct);
      RefreshIsInBand(reg[ct], max, if answer.Some? then answer.value else map[]);
    }
  }

  /**
   * What an answered refresh leaves does not depend on what came before: a rejected feed value
   * puts the coin back on its static price, not on its last accepted one.
   */
  lemma PriorPricesAreNotKept(reg: Registry, max: Positive, before: seq<Option<Body>>, body: Body, ct: CoinType)
    requires ct in reg && reg[ct].usd.Some? && Hit(reg[ct], max, body).None?
    ensures Get(Feeds(reg, max, before + [Some(body)]), ct) == Static(reg[ct])
  {
    assert (before + [Some(body)])[..|before|] == before;
  }

  // ---------------------------------------------------------------------------
  // Conversion
  // ---------------------------------------------------------------------------

  function Pow10(d: nat): (r: nat)
    ensures r > 0
  {
    if d == 0 then 1 else 10 * Pow10(d - 1)
  }

  /** Integer microUSD of an atomic amount; both operands are non-negative, so division floors. */
  function MicroUsdFromAtomic(amount: nat, price: nat, decimals: nat): nat { Ratio(amount * price, Pow10(decimals)) }

  function Ratio(n: nat, d: nat): nat
    requires d > 0
  {
    n / d
  }

  /** With no decimals an amount is worth its price each; one more decimal divides what ten times the amount is worth. */
  lemma ConversionScales(amount: nat, price: nat, decimals: nat)
    ensures MicroUsdFromAtomic(amount, price, 0) == amount * price
    ensures MicroUsdFromAtomic(10 * amount, price, decimals + 1) == MicroUsdFromAtomic(amount, price, decimals)
  {
    assert 10 * amount * price == 10 * (amount * price);
    TenfoldRatio(amount * price, Pow10(decimals));
  }

  lemma TenfoldRatio(n: nat, d: nat)
    requires d > 0
    ensures Ratio(10 * n, 10 * d) == Ratio(n, d)
  {
    var q, r := n / d, n % d;
    DivMod(n, d);
    assert 10 * n == q * (10 * d) + 10 * r;
    QuotientIs(10 * n, 10 * d, q, 10 * r);
  }

  lemma QuotientIs(n: nat, d: nat, q: nat, r: nat)
    requires d > 0 && n == q * d + r && r < d
    ensures n / d == q
  {
    DivMod(n, d);
    QuotientUnique(n / d, n % d, q, r, d);
  }

  lemma QuotientUnique(m: nat, s: nat, q: nat, r: nat, d: nat)
    requires m * d + s == q * d + r && s < d && r < d
    ensures m == q
  {
    FactorOrder(m, q + 1, d);
    FactorOrder(q, m + 1, d);
    Distribute(q, 1, d);
    Distribute(m, 1, d);
  }

  /** One whole coin of nine decimals is worth its price. */
  lemma WholeCoinIsItsPrice(price: nat)
    ensures MicroUsdFromAtomic(1_000_000_000, price, 9) == price
  {
    ConversionScales(1, price, 0);
    ConversionScales(10, price, 1);
    ConversionScales(100, price, 2);
    ConversionScales(1_000, price, 3);
    ConversionScales(10_000, price, 4);
    ConversionScales(100_000, price, 5);
    ConversionScales(1_000_000, price, 6);
    ConversionScales(10_000_000, price, 7);
    ConversionScales(100_000_000, price, 8);
  }

  function Total(amounts: seq<nat>): nat {
    if amounts == [] then 0 else Total(amounts[..|amounts| - 1]) + amounts[|amounts| - 1]
  }

  function Earned(amounts: seq<nat>, price: nat, decimals: nat): nat {
    if amounts == [] then 0
    else Earned(amounts[..|amounts| - 1], price, decimals) + MicroUsdFromAtomic(amounts[|amounts| - 1], price, decimals)
  }

  lemma DivMod(n: nat, d: nat)
    requires d > 0
    ensures n == n / d * d + n % d && n % d < d
  {}

  lemma Distribute(a: nat, b: nat, d: nat)
    ensures (a + b) * d == a * d + b * d
  {}

  lemma FloorOfSum(x: nat, y: nat, d: nat)
    requires d > 0
    ensures x / d + y / d <= (x + y) / d <= x / d + y / d + 1
  {
    var q, r := x / d + y / d, x % d + y % d;
    DivMod(x, d);
    DivMod(y, d);
    Distribute(x / d, y / d, d);
    FloorIs(x + y, d, q, r);
  }

  lemma FactorOrder(a: nat, b: nat, d: nat)
    ensures a >= b ==> a * d >= b * d
  {}

  lemma FloorIs(n: nat, d: nat, q: nat, r: nat)
    requires d > 0 && n == q * d + r && r < 2 * d
    ensures q <= n / d <= q + 1
  {
    var m := n / d;
    DivMod(n, d);
    Distribute(m, 1, d);
    Distribute(q, 2, d);
    FactorOrder(q, m + 1, d);
    FactorOrder(m, q + 2, d);
  }

  lemma NothingEarned(price: nat, decimals: nat)
    ensures MicroUsdFromAtomic(0, price, decimals) == 0
  {
    assert 0 * price == 0;
  }

  lemma MicroUsdOfSum(a: nat, b: nat, price: nat, decimals: nat)
    ensures var apart := MicroUsdFromAtomic(a, price, decimals) + MicroUsdFromAtomic(b, price, decimals);
            apart <= MicroUsdFromAtomic(a + b, price, decimals) <= apart + 1
  {
    Distribute(a, b, price);
    FloorOfSum(a * price, b * price, Pow10(decimals));
  }

  /** At a fixed price, k parts credited apart earn no more than their merged amount, and lose less than k microUSD. */
  lemma {:induction false} SplittingLosesLessThanParts(amounts: seq<nat>, price: nat, decimals: nat)
    ensures Earned(amounts, price, decimals) <= MicroUsdFromAtomic(Total(amounts), price, decimals)
    ensures amounts != [] ==> MicroUsdFromAtomic(Total(amounts), price, decimals) < Earned(amounts, price, decimals) + |amounts|
  {
    if amounts != [] {
      var rest, last := amounts[..|amounts| - 1], amounts[|amounts| - 1];
      SplittingLosesLessThanParts(rest, price, decimals);
      MicroUsdOfSum(Total(rest), last, price, decimals);
      if rest == [] { NothingEarned(price, decimals); }
    }
  }
}
