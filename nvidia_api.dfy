/**
 * Pipeline B (`nvidia_api.py`): a status-change watch of NVIDIA's product
 * search API. Each run keeps the products whose title names a tracked model,
 * alerts on every one whose status moved to something other than
 * OUT_OF_STOCK, and replaces the stored sku-to-status map when some status
 * changed or when the stored map was empty.
 */
module NvidiaApi {
  import opened Wrappers
  import opened Text
  import opened Seqs

  /** Model numbers worth watching (`OBJETIVOS`), matched case-sensitively inside the title. */
  const Targets: seq<string> := ["5080", "5090", "4090", "4080"]

  /** Status strings the code compares against; any other string is passed through as it is. */
  const Unknown := "UNKNOWN"
  const OutOfStock := "OUT_OF_STOCK"
  const InStock := "IN_STOCK"

  /** Field defaults for a product record that lacks the key. */
  const NoTitle := "Desconocido"
  const NoPrice := "???"

  /** Green accent and broadcast mention when the card is in stock. */
  const InStockColor := 5763719
  const InStockMessage := "@everyone \U{1F6A8} **STOCK NVIDIA FE DETECTADO**"
  /** Yellow accent and plain announcement for any other new status. */
  const OtherColor := 16776960
  const OtherMessage := "\U{1F4E2} **Novedad en API Nvidia**"
  const Footer := "Monitor API NVIDIA - GitHub Actions"

  /** One entry of `productDetails`: each field is `None` when the key is absent. */
  datatype RawProduct = RawProduct(
    productTitle: Option<string>,
    productID: Option<string>,
    status: Option<string>,
    productUrl: Option<string>,
    productPrice: Option<string>)

  /** A product record with its defaults filled in. */
  datatype Product = Product(title: string, sku: string, status: string, url: string, price: string)

  /**
   * The outcome of the HTTP request: it failed (timeout, connection error, a
   * body that is not JSON), or it came back with a status code and, when the
   * body has `searchedProducts.productDetails`, that list.
   */
  datatype ApiReply = Failed | Reply(statusCode: int, productDetails: Option<seq<RawProduct>>)

  /** The `estado_nvidia.json` file: absent, unreadable, or a saved sku-to-status map. */
  datatype StateFile = Missing | Unreadable | Saved(state: map<string, string>)

  /** The embed posted to the Discord webhook. */
  datatype Payload = Payload(content: string, title: string, url: string, description: string, color: int, footer: string)

  // ---------------------------------------------------------------------------
  // Field defaults and the keyword filter
  // ---------------------------------------------------------------------------

  /** The `p.get(key, default)` lines: a missing title reads 'Desconocido', a missing id the title. */
  function Defaulted(raw: RawProduct): Product {
    var title := raw.productTitle.GetOr(NoTitle);
    Product(title, raw.productID.GetOr(title), raw.status.GetOr(Unknown), raw.productUrl.GetOr(""), raw.productPrice.GetOr(NoPrice))
  }

  /** Each field falls back to its default only when the API left it out; a product without an id is keyed by its title. */
  lemma {:induction false} DefaultsApplied(raw: RawProduct)
    ensures raw.productTitle.None? ==> Defaulted(raw).title == NoTitle
    ensures raw.productTitle.Some? ==> Defaulted(raw).title == raw.productTitle.value
    ensures raw.productID.None? ==> Defaulted(raw).sku == Defaulted(raw).title
    ensures raw.productID.Some? ==> Defaulted(raw).sku == raw.productID.value
    ensures raw.status.None? ==> Defaulted(raw).status == Unknown
    ensures raw.status.Some? ==> Defaulted(raw).status == raw.status.value
    ensures raw.productUrl.None? ==> Defaulted(raw).url == ""
    ensures raw.productUrl.Some? ==> Defaulted(raw).url == raw.productUrl.value
    ensures raw.productPrice.None? ==> Defaulted(raw).price == NoPrice
    ensures raw.productPrice.Some? ==> Defaulted(raw).price == raw.productPrice.value
  {
  }

  predicate IsTarget(title: string) {
    ContainsAny(title, Targets)
  }

  /** One entry of `productDetails`: its defaulted product when the title names a target. */
  function Pick(raw: RawProduct): Option<Product> {
    var p := Defaulted(raw);
    if IsTarget(p.title) then Some(p) else None
  }

  /** The products that pass the keyword filter, in the order the API listed them. */
  function Candidates(raws: seq<RawProduct>): seq<Product> {
    FilterMap(Pick, raws)
  }

  /** Every raw product whose title names a target becomes a candidate. */
  lemma {:induction false} TargetIsCandidate(raws: seq<RawProduct>, i: nat)
    requires i < |raws| && IsTarget(Defaulted(raws[i]).title)
    ensures Defaulted(raws[i]) in Candidates(raws)
  {
    KeptIsListed(Pick, raws, i);
  }

  /** Every candidate is a raw product, with its defaults, whose title names a target. */
  lemma {:induction false} CandidateIsTarget(raws: seq<RawProduct>, p: Product) returns (i: nat)
    requires p in Candidates(raws)
    ensures i < |raws| && p == Defaulted(raws[i]) && IsTarget(p.title)
  {
    i := ListedIsKept(Pick, raws, p);
  }

  /** A title without the digits '5' and '4' can name none of the tracked models. */
  lemma {:induction false} NoTargetWithoutDigits(title: string)
    requires '5' !in title && '4' !in title
    ensures !IsTarget(title)
  {
    MissingCharNotContained(title, Targets[0], 0);
    MissingCharNotContained(title, Targets[1], 0);
    MissingCharNotContained(title, Targets[2], 0);
    MissingCharNotContained(title, Targets[3], 0);
    ContainsAnyIff(title, Targets);
  }

  /** A title holding none of the tracked model numbers never qualifies, whatever its status. */
  lemma {:induction false} OtherModelExcluded(id: Option<string>, status: Option<string>, url: Option<string>, price: Option<string>)
    ensures Candidates([RawProduct(Some("GeForce RTX 3060"), id, status, url, price)]) == []
  {
    var title := "GeForce RTX 3060";
    NoTargetWithoutDigits(title);
    var raws := [RawProduct(Some(title), id, status, url, price)];
    assert raws[..0] == [];
    assert Defaulted(raws[0]).title == title;
  }

  // ---------------------------------------------------------------------------
  // Status reconciliation
  // ---------------------------------------------------------------------------

  /** `estado_antiguo.get(sku, "UNKNOWN")`. */
  function PriorStatus(prior: map<string, string>, sku: string): (s: string)
    ensures sku in prior ==> s == prior[sku]
    ensures sku !in prior ==> s == Unknown
  {
    if sku in prior then prior[sku] else Unknown
  }

  /** The candidate's status differs from the one stored for its sku. */
  predicate Changed(p: Product, prior: map<string, string>) {
    p.status != PriorStatus(prior, p.sku)
  }

  /** Alert when the status changed and is not OUT_OF_STOCK. */
  predicate ShouldAlert(p: Product, prior: map<string, string>) {
    p.status != OutOfStock && Changed(p, prior)
  }

  /** `estado_nuevo`: each candidate's sku mapped to its status; a later duplicate overwrites an earlier one. */
  function StateOf(cs: seq<Product>): (state: map<string, string>)
    ensures |state| <= |cs|
  {
    if cs == [] then map[]
    else
      var last := cs[|cs| - 1];
      StateOf(cs[..|cs| - 1])[last.sku := last.status]
  }

  /** The candidates to alert on, in candidate order. */
  function AlertsOf(cs: seq<Product>, prior: map<string, string>): (alerts: seq<Product>)
    ensures |alerts| <= |cs|
    ensures alerts != [] ==> AnyChange(cs, prior)
  {
    if cs == [] then []
    else
      var rest := AlertsOf(cs[..|cs| - 1], prior);
      var last := cs[|cs| - 1];
      if ShouldAlert(last, prior) then rest + [last] else rest
  }

  /** `hay_cambios`, as the loop computes it. */
  function AnyChange(cs: seq<Product>, prior: map<string, string>): bool {
    if cs == [] then false
    else AnyChange(cs[..|cs| - 1], prior) || Changed(cs[|cs| - 1], prior)
  }

  /** `hay_cambios or not estado_antiguo`. */
  predicate ShouldSave(cs: seq<Product>, prior: map<string, string>) {
    AnyChange(cs, prior) || prior == map[]
  }

  /** The map the next run will read back: the new one if it was saved, the old one otherwise. */
  function Next(cs: seq<Product>, prior: map<string, string>): map<string, string> {
    if ShouldSave(cs, prior) then StateOf(cs) else prior
  }

  /**
   * The product loop of `check_api`: apply the defaults, skip non-targets,
   * record the status, collect the alerts and raise the change flag.
   */
  method Reconcile(raws: seq<RawProduct>, prior: map<string, string>)
    returns (alerts: seq<Product>, state: map<string, string>, changed: bool)
    ensures alerts == AlertsOf(Candidates(raws), prior)
    ensures state == StateOf(Candidates(raws))
    ensures changed == AnyChange(Candidates(raws), prior)
  {
    alerts, state, changed := [], map[], false;
    ghost var cs: seq<Product> := [];
    for i := 0 to |raws|
      invariant cs == Candidates(raws[..i])
      invariant alerts == AlertsOf(cs, prior)
      invariant state == StateOf(cs)
      invariant changed == AnyChange(cs, prior)
    {
      FilterMapStep(Pick, raws, i);
      var picked := Pick(raws[i]);
      if picked.None? {
        continue;
      }
      var p := picked.value;
      StatusStep(cs, p, prior);
      cs := cs + [p];
      state := state[p.sku := p.status];
      var before := PriorStatus(prior, p.sku);
      if p.status != OutOfStock && p.status != before {
        alerts := alerts + [p];
      }
      if p.status != before {
        changed := true;
      }
    }
    assert raws[..|raws|] == raws;
  }

  /** What one more candidate does to the alerts, the new map and the change flag. */
  lemma {:induction false} StatusStep(cs: seq<Product>, p: Product, prior: map<string, string>)
    ensures AlertsOf(cs + [p], prior) == AlertsOf(cs, prior) + (if ShouldAlert(p, prior) then [p] else [])
    ensures StateOf(cs + [p]) == StateOf(cs)[p.sku := p.status]
    ensures AnyChange(cs + [p], prior) == (AnyChange(cs, prior) || Changed(p, prior))
  {
    assert (cs + [p])[..|cs|] == cs;
  }

  /** The new map holds exactly the candidates' skus: nothing is carried over from the old one. */
  lemma {:induction false} StateOfDomain(cs: seq<Product>, sku: string)
    ensures sku in StateOf(cs) <==> exists i | 0 <= i < |cs| :: cs[i].sku == sku
  {
    if cs != [] {
      var init := cs[..|cs| - 1];
      StateOfDomain(init, sku);
      if i :| 0 <= i < |init| && init[i].sku == sku {
        assert cs[i] == init[i];
      }
      if i :| 0 <= i < |cs| - 1 && cs[i].sku == sku {
        assert init[i] == cs[i];
      }
    }
  }

  /** For a sku listed several times, the last listing's status is the one stored. */
  lemma {:induction false} StateOfLastWins(cs: seq<Product>, i: nat)
    requires i < |cs|
    requires forall j | i < j < |cs| :: cs[j].sku != cs[i].sku
    ensures cs[i].sku in StateOf(cs) && StateOf(cs)[cs[i].sku] == cs[i].status
  {
    if i < |cs| - 1 {
      var init := cs[..|cs| - 1];
      assert init[i] == cs[i];
      StateOfLastWins(init, i);
    }
  }

  /** A product that fails the keyword filter never enters the stored map. */
  lemma {:induction false} NonTargetsNeverStored(raws: seq<RawProduct>, sku: string)
    requires sku in StateOf(Candidates(raws))
    ensures exists i | 0 <= i < |raws| :: Defaulted(raws[i]).sku == sku && IsTarget(Defaulted(raws[i]).title)
  {
    var cs := Candidates(raws);
    StateOfDomain(cs, sku);
    var k :| 0 <= k < |cs| && cs[k].sku == sku;
    var i := CandidateIsTarget(raws, cs[k]);
  }

  /** A candidate is alerted on iff its status is not OUT_OF_STOCK and differs from the stored one. */
  lemma {:induction false} AlertsMembers(cs: seq<Product>, prior: map<string, string>, p: Product)
    ensures p in AlertsOf(cs, prior) <==> p in cs && p.status != OutOfStock && p.status != PriorStatus(prior, p.sku)
  {
    if cs != [] {
      var init := cs[..|cs| - 1];
      AlertsMembers(init, prior, p);
      assert cs == init + [cs[|cs| - 1]];
    }
  }

  /** No alert is ever sent for OUT_OF_STOCK. */
  lemma {:induction false} NoAlertWhenOutOfStock(cs: seq<Product>, prior: map<string, string>, i: nat)
    requires i < |AlertsOf(cs, prior)|
    ensures AlertsOf(cs, prior)[i].status != OutOfStock
  {
    AlertsMembers(cs, prior, AlertsOf(cs, prior)[i]);
  }

  /** The change flag is raised iff some candidate's status differs from the stored one. */
  lemma {:induction false} AnyChangeIff(cs: seq<Product>, prior: map<string, string>)
    ensures AnyChange(cs, prior) <==> exists i | 0 <= i < |cs| :: Changed(cs[i], prior)
  {
    if cs != [] {
      var init := cs[..|cs| - 1];
      AnyChangeIff(init, prior);
      if i :| 0 <= i < |init| && Changed(init[i], prior) {
        assert cs[i] == init[i];
      }
      if i :| 0 <= i < |cs| - 1 && Changed(cs[i], prior) {
        assert init[i] == cs[i];
      }
    }
  }

  /** Dropping a stored sku that is not listed this run changes neither the alerts nor the change flag. */
  lemma {:induction false} VanishedSkuIsNoChange(cs: seq<Product>, prior: map<string, string>, sku: string)
    requires forall i | 0 <= i < |cs| :: cs[i].sku != sku
    ensures AnyChange(cs, prior - {sku}) == AnyChange(cs, prior)
    ensures AlertsOf(cs, prior - {sku}) == AlertsOf(cs, prior)
  {
    if cs != [] {
      var init := cs[..|cs| - 1];
      assert forall i | 0 <= i < |init| :: init[i] == cs[i];
      VanishedSkuIsNoChange(init, prior, sku);
      assert PriorStatus(prior - {sku}, cs[|cs| - 1].sku) == PriorStatus(prior, cs[|cs| - 1].sku);
    }
  }

  /** No sku is listed twice with two different statuses. */
  predicate ConsistentSkus(cs: seq<Product>) {
    forall i, j | 0 <= i < |cs| && 0 <= j < |cs| :: cs[i].sku == cs[j].sku ==> cs[i].status == cs[j].status
  }

  lemma {:induction false} StateOfConsistent(cs: seq<Product>, i: nat)
    requires ConsistentSkus(cs) && i < |cs|
    ensures cs[i].sku in StateOf(cs) && StateOf(cs)[cs[i].sku] == cs[i].status
  {
    var init := cs[..|cs| - 1];
    if i < |cs| - 1 && cs[|cs| - 1].sku != cs[i].sku {
      assert init[i] == cs[i];
      assert forall a, b | 0 <= a < |init| && 0 <= b < |init| :: init[a] == cs[a] && init[b] == cs[b];
      StateOfConsistent(init, i);
    }
  }

  /**
   * Running again on the same snapshot sends nothing, reports no change,
   * leaves the stored map as it is and writes nothing (except that with no
   * candidates and an empty map the empty map is written again), as long as
   * no sku is listed twice with two different statuses.
   */
  lemma {:induction false} SecondRunIsQuiet(cs: seq<Product>, prior: map<string, string>)
    requires ConsistentSkus(cs)
    ensures AlertsOf(cs, Next(cs, prior)) == []
    ensures !AnyChange(cs, Next(cs, prior))
    ensures Next(cs, Next(cs, prior)) == Next(cs, prior)
    ensures cs != [] || prior != map[] ==> !ShouldSave(cs, Next(cs, prior))
  {
    var next := Next(cs, prior);
    if ShouldSave(cs, prior) {
      forall i | 0 <= i < |cs|
        ensures !Changed(cs[i], next)
      {
        StateOfConsistent(cs, i);
      }
      if cs != [] {
        StateOfDomain(cs, cs[0].sku);
      }
    } else {
      AnyChangeIff(cs, prior);
    }
    AnyChangeIff(cs, next);
  }

  /** The same sku listed as IN_STOCK and then OUT_OF_STOCK keeps raising the alert and the change flag. */
  lemma {:induction false} DuplicateSkuNeverSettles()
    ensures var cs := [Product("RTX 5090", "X", InStock, "", NoPrice), Product("RTX 5090", "X", OutOfStock, "", NoPrice)];
            && Next(cs, map[]) == map["X" := OutOfStock]
            && AnyChange(cs, Next(cs, map[]))
            && AlertsOf(cs, Next(cs, map[])) == [cs[0]]
            && Next(cs, Next(cs, map[])) == Next(cs, map[])
  {
    var cs := [Product("RTX 5090", "X", InStock, "", NoPrice), Product("RTX 5090", "X", OutOfStock, "", NoPrice)];
    var first := [cs[0]];
    assert cs[..1] == first && first[..0] == [];
    assert StateOf(first) == map["X" := InStock];
    assert StateOf(cs) == map["X" := OutOfStock];
    var next := Next(cs, map[]);
    assert Changed(cs[0], next);
    assert AlertsOf(first, next) == first;
  }

  // ---------------------------------------------------------------------------
  // Alert payload
  // ---------------------------------------------------------------------------

  /** The message `notificar_discord` posts for one product. */
  function AlertFor(p: Product): (a: Payload)
    ensures a.title == p.title && a.url == p.url && a.footer == Footer
    ensures a.description == "**Estado:** " + p.status + "\n**Precio:** " + p.price
    ensures a.color == InStockColor <==> p.status == InStock
    ensures a.content == InStockMessage <==> p.status == InStock
    ensures p.status != InStock ==> a.color == OtherColor && a.content == OtherMessage
  {
    var inStock := p.status == InStock;
    Payload(
      if inStock then InStockMessage else OtherMessage,
      p.title,
      p.url,
      "**Estado:** " + p.status + "\n**Precio:** " + p.price,
      if inStock then InStockColor else OtherColor,
      Footer)
  }

  /** The messages posted for a list of products: one each, in order, or none without a webhook. */
  function Outbox(webhook: Option<string>, ps: seq<Product>): (msgs: seq<Payload>)
    ensures Configured(webhook) ==> |msgs| == |ps| && forall i :: 0 <= i < |ps| ==> msgs[i] == AlertFor(ps[i])
    ensures !Configured(webhook) ==> msgs == []
  {
    if Configured(webhook) then seq(|ps|, i requires 0 <= i < |ps| => AlertFor(ps[i])) else []
  }

  /** A run that sees a single candidate: at most one alert, and at most one entry stored. */
  lemma {:induction false} SingleCandidateRun(p: Product, prior: map<string, string>)
    ensures AlertsOf([p], prior) == if ShouldAlert(p, prior) then [p] else []
    ensures Next([p], prior) == if Changed(p, prior) || prior == map[] then map[p.sku := p.status] else prior
  {
    assert [p][..0] == [];
    assert AnyChange([p], prior) == Changed(p, prior);
    assert StateOf([p]) == map[p.sku := p.status];
  }

  /** The Founders Edition card used in the status timeline below. */
  function Founders(status: string): Product {
    Product("NVIDIA GeForce RTX 5090 Founders Edition", "FE5090", status, "", NoPrice)
  }

  /**
   * One card seen as UNKNOWN, COMING_SOON, COMING_SOON, IN_STOCK,
   * OUT_OF_STOCK, IN_STOCK by six successive runs from an empty map: only the
   * second (a normal alert), the fourth and the sixth (broadcast alerts) send
   * anything; the first sighting as UNKNOWN, the repeat and the switch to
   * OUT_OF_STOCK are silent, though the last one is stored.
   */
  lemma {:induction false} StatusTimeline()
    ensures var m1 := Next([Founders(Unknown)], map[]);
            var m2 := Next([Founders("COMING_SOON")], m1);
            var m3 := Next([Founders("COMING_SOON")], m2);
            var m4 := Next([Founders(InStock)], m3);
            var m5 := Next([Founders(OutOfStock)], m4);
            && AlertsOf([Founders(Unknown)], map[]) == []
            && AlertsOf([Founders("COMING_SOON")], m1) == [Founders("COMING_SOON")]
            && AlertsOf([Founders("COMING_SOON")], m2) == []
            && AlertsOf([Founders(InStock)], m3) == [Founders(InStock)]
            && AlertsOf([Founders(OutOfStock)], m4) == []
            && m5 == map["FE5090" := OutOfStock]
            && AlertsOf([Founders(InStock)], m5) == [Founders(InStock)]
    ensures AlertFor(Founders("COMING_SOON")).color == OtherColor
    ensures AlertFor(Founders(InStock)).color == InStockColor
  {
    var m0: map<string, string> := map[];
    SingleCandidateRun(Founders(Unknown), m0);
    var m1 := map["FE5090" := Unknown];
    SingleCandidateRun(Founders("COMING_SOON"), m1);
    var m2 := map["FE5090" := "COMING_SOON"];
    SingleCandidateRun(Founders("COMING_SOON"), m2);
    SingleCandidateRun(Founders(InStock), m2);
    var m4 := map["FE5090" := InStock];
    SingleCandidateRun(Founders(OutOfStock), m4);
    var m5 := map["FE5090" := OutOfStock];
    SingleCandidateRun(Founders(InStock), m5);
  }

  // ---------------------------------------------------------------------------
  // One run of the monitor
  // ---------------------------------------------------------------------------

  /** `cargar_estado`: a missing or unreadable file reads as the empty map. */
  function LoadState(file: StateFile): (state: map<string, string>)
    ensures file.Saved? ==> state == file.state
    ensures !file.Saved? ==> state == map[]
  {
    match file
    case Saved(state) => state
    case _ => map[]
  }

  /** The monitor's durable effects: the state file and the messages posted so far. */
  class Monitor {
    const webhook: Option<string>
    var file: StateFile
    var sent: seq<Payload>

    constructor (webhook: Option<string>, file: StateFile)
      ensures this.webhook == webhook && this.file == file && sent == []
    {
      this.webhook := webhook;
      this.file := file;
      sent := [];
    }

    /** `notificar_discord`: post one alert, or nothing when no webhook is set. */
    method Notify(p: Product)
      modifies this`sent
      ensures sent == old(sent) + Outbox(webhook, [p])
    {
      if Configured(webhook) {
        sent := sent + [AlertFor(p)];
      }
    }

    /** The alerts of one run posted one after another, in the order the API listed the products. */
    method NotifyAll(ps: seq<Product>)
      modifies this`sent
      ensures sent == old(sent) + Outbox(webhook, ps)
    {
      for i := 0 to |ps|
        invariant sent == old(sent) + Outbox(webhook, ps[..i])
      {
        assert ps[..i + 1] == ps[..i] + [ps[i]];
        Notify(ps[i]);
      }
      assert ps[..|ps|] == ps;
    }

    /** `check_api`. A failed request or a status other than 200 ends the run with no effect. */
    method CheckApi(reply: ApiReply)
      modifies this`file, this`sent
      ensures !(reply.Reply? && reply.statusCode == 200) ==> file == old(file) && sent == old(sent)
      ensures reply.Reply? && reply.statusCode == 200 ==>
                var cs := Candidates(reply.productDetails.GetOr([]));
                var prior := LoadState(old(file));
                && sent == old(sent) + Outbox(webhook, AlertsOf(cs, prior))
                && file == if ShouldSave(cs, prior) then Saved(StateOf(cs)) else old(file)
    {
      if !(reply.Reply? && reply.statusCode == 200) {
        return;
      }
      var products := reply.productDetails.GetOr([]);
      var prior := LoadState(file);
      var alerts, state, changed := Reconcile(products, prior);
      NotifyAll(alerts);
      if changed || prior == map[] {
        file := Saved(state);
      }
    }
  }

  /** Two runs on the same reply have the effect of one, when no sku is listed twice with two statuses. */
  method CheckTwice(m: Monitor, reply: ApiReply)
    requires reply.Reply? ==> ConsistentSkus(Candidates(reply.productDetails.GetOr([])))
    modifies m
    ensures !(reply.Reply? && reply.statusCode == 200) ==> m.file == old(m.file) && m.sent == old(m.sent)
    ensures reply.Reply? && reply.statusCode == 200 ==>
              var cs := Candidates(reply.productDetails.GetOr([]));
              var prior := LoadState(old(m.file));
              && m.sent == old(m.sent) + Outbox(m.webhook, AlertsOf(cs, prior))
              && m.file == if ShouldSave(cs, prior) then Saved(StateOf(cs)) else old(m.file)
  {
    m.CheckApi(reply);
    if reply.Reply? && reply.statusCode == 200 {
      SecondRunIsQuiet(Candidates(reply.productDetails.GetOr([])), LoadState(old(m.file)));
    }
    m.CheckApi(reply);
  }
}
