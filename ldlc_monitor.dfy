/**
 * Pipeline A (`ldlc_monitor.py`): a presence-based watch of the LDLC graphics
 * card listing. Each run filters the scraped product blocks, alerts on every
 * candidate whose id was not in the list of ids seen last time, and replaces
 * that list when something new showed up or when it was empty.
 */
module LdlcMonitor {
  import opened Wrappers
  import opened Text
  import opened Seqs

  /** Board partners whose cards are not wanted (`MARCAS_IGNORAR`). */
  const ExcludedBrands: seq<string> :=
    ["asus", "msi", "gigabyte", "zotac", "pny", "gainward", "palit", "inno3d", "kfa2"]

  /** Price shown when the block has no price element. */
  const NoPrice := "Precio no disponible"
  /** Stock label given to every candidate: no "out of stock" wording was seen. */
  const ProbablyInStock := "En Stock (Probable)"

  /** Red accent and broadcast mention for a (probable) Founders Edition. */
  const FoundersColor := 15548997
  const FoundersMessage := "@everyone \U{1F6A8} **FOUNDERS EDITION DETECTADA**"
  /** Green accent and plain announcement for any other card. */
  const OtherColor := 5763719
  const OtherMessage := "\U{1F4E2} **Stock detectado en LDLC**"

  /**
   * One product block as the browser read it: the stripped title text, the
   * title link, the price and image when the block has them, and the whole
   * text of the block. A block whose title or link could not be read is
   * `None` in the snapshot and is skipped.
   */
  datatype RawItem = RawItem(name: string, link: string, price: Option<string>, img: Option<string>, text: string)

  /** A candidate, as appended to `productos_encontrados`. */
  datatype Product = Product(id: string, name: string, link: string, price: string, stock: string, img: string)

  /** What one run of the browser yields: nothing at all, or the product blocks in page order. */
  datatype Page = Unreachable | Listed(items: seq<Option<RawItem>>)

  /** The `vistos_ldlc.json` file: absent, unreadable, or a saved list of ids. */
  datatype SeenFile = Missing | Unreadable | Saved(ids: seq<string>)

  /** The embed posted to the Discord webhook. */
  datatype Payload = Payload(content: string, title: string, url: string, description: string, color: int, thumbnail: string)

  // ---------------------------------------------------------------------------
  // Candidate filter
  // ---------------------------------------------------------------------------

  /** The lowered name contains one of the excluded board partners. */
  predicate IsThirdPartyBrand(name: string) {
    ContainsAny(Lower(name), ExcludedBrands)
  }

  /** The block's text says "rupture" (French) or "agotado" (Spanish), in any casing. */
  predicate IsStockNegative(text: string) {
    Contains(Lower(text), "rupture") || Contains(Lower(text), "agotado")
  }

  /**
   * The body of the scraping loop for one readable block: the product it
   * appends, if any. A block is kept when its name names no excluded brand or
   * says "founder", and its text says neither "rupture" nor "agotado".
   */
  function Admit(raw: RawItem): (r: Option<Product>)
    ensures r.Some? <==>
              (!IsThirdPartyBrand(raw.name) || Contains(Lower(raw.name), "founder"))
              && !IsStockNegative(raw.text)
    ensures r.Some? ==> '/' !in r.value.id && r.value.link == raw.link && r.value.name == raw.name
    ensures r.Some? ==> r.value.id == LastSegment(raw.link) && r.value.stock == ProbablyInStock
    ensures r.Some? ==> r.value.price == raw.price.GetOr(NoPrice) && r.value.img == raw.img.GetOr("")
  {
    var nameLower := Lower(raw.name);
    if !IsThirdPartyBrand(raw.name) || Contains(nameLower, "founder") then
      if !IsStockNegative(raw.text) then
        Some(Product(LastSegment(raw.link), raw.name, raw.link, raw.price.GetOr(NoPrice), ProbablyInStock, raw.img.GetOr("")))
      else
        None
    else
      None
  }

  /** One entry of the snapshot: an unreadable block yields nothing, a readable one what `Admit` says. */
  function Keep(item: Option<RawItem>): Option<Product> {
    match item
    case Some(raw) => Admit(raw)
    case None => None
  }

  /** The candidates of a snapshot, in page order. */
  function Candidates(items: seq<Option<RawItem>>): seq<Product> {
    FilterMap(Keep, items)
  }

  /** The scraping loop of `check_ldlc`, appending each admitted block. */
  method CollectCandidates(items: seq<Option<RawItem>>) returns (found: seq<Product>)
    ensures found == Candidates(items)
  {
    found := [];
    for i := 0 to |items|
      invariant found == Candidates(items[..i])
    {
      assert items[..i + 1][..i] == items[..i];
      match items[i] {
        case Some(raw) =>
          var admitted := Admit(raw);
          if admitted.Some? {
            found := found + [admitted.value];
          }
        case None =>
      }
    }
    assert items[..|items|] == items;
  }

  /** Every admitted block of the snapshot yields a candidate. */
  lemma {:induction false} AdmittedIsCandidate(items: seq<Option<RawItem>>, i: nat)
    requires i < |items| && items[i].Some? && Admit(items[i].value).Some?
    ensures Admit(items[i].value).value in Candidates(items)
  {
    KeptIsListed(Keep, items, i);
  }

  /** Every candidate comes from an admitted block of the snapshot. */
  lemma {:induction false} CandidateIsAdmitted(items: seq<Option<RawItem>>, p: Product) returns (i: nat)
    requires p in Candidates(items)
    ensures i < |items| && items[i].Some? && Admit(items[i].value) == Some(p)
  {
    i := ListedIsKept(Keep, items, p);
  }

  /** A candidate's id is the tail of its link after the last '/', so it holds no '/'. */
  lemma {:induction false} CandidateIdHasNoSlash(items: seq<Option<RawItem>>, p: Product)
    requires p in Candidates(items)
    ensures '/' !in p.id
    ensures p.id == LastSegment(p.link)
  {
    var i := CandidateIsAdmitted(items, p);
  }

  /** A block that fails to parse costs only itself: the blocks around it are still processed. */
  lemma {:induction false} UnreadableBlockSkipped(xs: seq<Option<RawItem>>, ys: seq<Option<RawItem>>)
    ensures Candidates(xs + [None] + ys) == Candidates(xs) + Candidates(ys)
  {
    DroppedIsSkipped(Keep, xs, None, ys);
  }

  /** Stock-negative wording in any casing rules a block out, whatever its name says. */
  lemma {:induction false} StockNegativeWins(raw: RawItem, word: string)
    requires Contains(raw.text, word)
    requires Lower(word) == "agotado" || Lower(word) == "rupture"
    ensures Admit(raw).None?
  {
    LowerKeepsOccurrence(raw.text, word);
  }

  /** The lowered name "asus rog founders edition rtx 5090" names a partner brand and says "founder". */
  lemma {:induction false} FoundersNameIsPartner(lowered: string)
    requires lowered == "asus rog founders edition rtx 5090"
    ensures ContainsAny(lowered, ExcludedBrands) && Contains(lowered, "founder")
  {
    var before, after := "asus rog ", "s edition rtx 5090";
    assert lowered == before + "founder" + after;
    assert OccursAt(lowered, ExcludedBrands[0], 0);
    OccursAtContains(lowered, ExcludedBrands[0], 0);
    ContainsAnyIff(lowered, ExcludedBrands);
    assert lowered[|before|..|before| + 7] == "founder";
    OccursAtContains(lowered, "founder", |before|);
  }

  /** A Founders Edition name beats the brand exclusion when the text shows no stock-negative wording. */
  lemma {:induction false} FoundersOverridesBrand(link: string, price: Option<string>, img: Option<string>, text: string)
    requires !IsStockNegative(text)
    ensures var raw := RawItem("ASUS ROG Founders Edition RTX 5090", link, price, img, text);
            IsThirdPartyBrand(raw.name) && Admit(raw).Some?
  {
    var lowered := Lower("ASUS ROG Founders Edition RTX 5090");
    assert lowered == "asus rog founders edition rtx 5090";
    FoundersNameIsPartner(lowered);
  }

  /** The lowered name "msi rtx 5090 gaming" names a partner brand and does not say "founder". */
  lemma {:induction false} MsiNameIsPartner(lowered: string)
    requires lowered == "msi rtx 5090 gaming"
    ensures ContainsAny(lowered, ExcludedBrands) && !Contains(lowered, "founder")
  {
    OccursAtContains(lowered, ExcludedBrands[1], 0);
    ContainsAnyIff(lowered, ExcludedBrands);
    MissingCharNotContained(lowered, "founder", 0);
  }

  /** A partner card without "founder" in its name is never a candidate. */
  lemma {:induction false} PartnerCardExcluded(link: string, price: Option<string>, img: Option<string>, text: string)
    ensures Admit(RawItem("MSI RTX 5090 Gaming", link, price, img, text)).None?
  {
    var lowered := Lower("MSI RTX 5090 Gaming");
    assert lowered == "msi rtx 5090 gaming";
    MsiNameIsPartner(lowered);
  }

  // ---------------------------------------------------------------------------
  // Novelty reconciliation and the save rule
  // ---------------------------------------------------------------------------

  /** `cargar_vistos`: a missing or unreadable file reads as the empty list. */
  function LoadSeen(file: SeenFile): (ids: seq<string>)
    ensures file.Saved? ==> ids == file.ids
    ensures !file.Saved? ==> ids == []
  {
    match file
    case Saved(ids) => ids
    case _ => []
  }

  /** `vistos_nuevos`: the ids of this run's candidates, in order. */
  function Ids(found: seq<Product>): (ids: seq<string>)
    ensures |ids| == |found|
    ensures forall i :: 0 <= i < |found| ==> ids[i] == found[i].id
  {
    seq(|found|, i requires 0 <= i < |found| => found[i].id)
  }

  /** The candidates to alert on: those whose id is not among the ids seen last time, in candidate order. */
  function Fresh(found: seq<Product>, prior: seq<string>): (unseen: seq<Product>)
    ensures |unseen| <= |found|
  {
    if found == [] then []
    else
      var rest := Fresh(found[..|found| - 1], prior);
      var last := found[|found| - 1];
      if last.id !in prior then rest + [last] else rest
  }

  /** Announcing is decided product by product: two halves of the candidate list announce their parts in a row. */
  lemma {:induction false} FreshConcat(xs: seq<Product>, ys: seq<Product>, prior: seq<string>)
    ensures Fresh(xs + ys, prior) == Fresh(xs, prior) + Fresh(ys, prior)
  {
    if ys == [] {
      assert xs + ys == xs;
    } else {
      var ys' := ys[..|ys| - 1];
      assert (xs + ys)[..|xs + ys| - 1] == xs + ys';
      FreshConcat(xs, ys', prior);
    }
  }

  lemma {:induction false} FreshMembers(found: seq<Product>, prior: seq<string>)
    ensures forall p :: p in Fresh(found, prior) <==> p in found && p.id !in prior
  {
    if found != [] {
      var init := found[..|found| - 1];
      FreshMembers(init, prior);
      assert found == init + [found[|found| - 1]];
    }
  }

  /** Nothing is new exactly when every candidate's id was seen last time. */
  lemma {:induction false} FreshEmptyIff(found: seq<Product>, prior: seq<string>)
    ensures Fresh(found, prior) == [] <==> forall i | 0 <= i < |found| :: found[i].id in prior
  {
    FreshMembers(found, prior);
    if Fresh(found, prior) != [] {
      assert Fresh(found, prior)[0] in Fresh(found, prior);
    }
    if i :| 0 <= i < |found| && found[i].id !in prior {
      assert found[i] in Fresh(found, prior);
    }
  }

  /** On a cold start every candidate is new. */
  lemma {:induction false} FreshOnColdStart(found: seq<Product>)
    ensures Fresh(found, []) == found
  {
    if found != [] {
      FreshOnColdStart(found[..|found| - 1]);
      assert found == found[..|found| - 1] + [found[|found| - 1]];
    }
  }

  /**
   * `nuevos_detectados or (not vistos_antiguos and vistos_nuevos)`: save when
   * some candidate is new, or when the old list was empty and this one is not.
   */
  function ShouldSave(found: seq<Product>, prior: seq<string>): (save: bool)
    ensures save <==>
              (exists i | 0 <= i < |found| :: found[i].id !in prior) || (prior == [] && found != [])
  {
    FreshEmptyIff(found, prior);
    Fresh(found, prior) != [] || (prior == [] && Ids(found) != [])
  }

  /** The ids the next run will read back: the new list if it was saved, the old one otherwise. */
  function NextSeen(found: seq<Product>, prior: seq<string>): seq<string> {
    if ShouldSave(found, prior) then Ids(found) else prior
  }

  /**
   * The reconciliation of `check_ldlc`: the candidates to alert on, the new
   * seen-list and whether to save it.
   */
  method Reconcile(found: seq<Product>, prior: seq<string>) returns (unseen: seq<Product>, seen: seq<string>, save: bool)
    ensures unseen == Fresh(found, prior)
    ensures seen == Ids(found)
    ensures save == ShouldSave(found, prior)
  {
    seen := Ids(found);
    var detected := false;
    unseen := [];
    for i := 0 to |found|
      invariant unseen == Fresh(found[..i], prior)
      invariant detected == (unseen != [])
    {
      assert found[..i + 1][..i] == found[..i];
      if found[i].id !in prior {
        unseen := unseen + [found[i]];
        detected := true;
      }
    }
    assert found[..|found|] == found;
    save := detected || (prior == [] && seen != []);
  }

  /** The saved list holds exactly this run's ids: an id that did not show up again is dropped. */
  lemma {:induction false} SavedListReplacesOld(found: seq<Product>, prior: seq<string>, id: string)
    requires ShouldSave(found, prior)
    ensures id in NextSeen(found, prior) <==> exists i | 0 <= i < |found| :: found[i].id == id
  {
    if id in NextSeen(found, prior) {
      var k :| 0 <= k < |Ids(found)| && Ids(found)[k] == id;
    }
  }

  /**
   * A run with nothing new keeps the old list, ids that dropped out included:
   * a card that disappears and comes back before anything new shows up is
   * not announced again.
   */
  lemma {:induction false} NothingNewKeepsOldList(found: seq<Product>, prior: seq<string>, back: seq<Product>)
    requires prior != [] && forall i | 0 <= i < |found| :: found[i].id in prior
    requires forall i | 0 <= i < |back| :: back[i].id in prior
    ensures NextSeen(found, prior) == prior
    ensures Fresh(back, NextSeen(found, prior)) == []
  {
    FreshEmptyIff(found, prior);
    FreshEmptyIff(back, prior);
  }

  /** A cold start alerts on every candidate, and saves exactly when there is one. */
  lemma {:induction false} ColdStart(found: seq<Product>)
    ensures Fresh(found, []) == found
    ensures ShouldSave(found, []) <==> found != []
  {
    FreshOnColdStart(found);
  }

  /** Running again on the same candidates alerts on nothing and saves nothing. */
  lemma {:induction false} SecondRunIsQuiet(found: seq<Product>, prior: seq<string>)
    ensures Fresh(found, NextSeen(found, prior)) == []
    ensures !ShouldSave(found, NextSeen(found, prior))
  {
    var next := NextSeen(found, prior);
    FreshEmptyIff(found, prior);
    FreshEmptyIff(found, next);
    if ShouldSave(found, prior) {
      assert forall i | 0 <= i < |found| :: found[i].id == Ids(found)[i];
      assert found != [] ==> next != [];
    }
  }

  // ---------------------------------------------------------------------------
  // Alert payload
  // ---------------------------------------------------------------------------

  predicate LooksLikeFounders(name: string) {
    Contains(Lower(name), "founder") || Contains(Lower(name), "nvidia")
  }

  /** The message `notificar_discord` posts for one candidate. */
  function AlertFor(p: Product): (a: Payload)
    ensures a.title == p.name && a.url == p.link && a.thumbnail == p.img
    ensures a.description == "Precio: " + p.price + "\nEstado: " + p.stock
    ensures a.color == FoundersColor <==> LooksLikeFounders(p.name)
    ensures a.content == FoundersMessage <==> LooksLikeFounders(p.name)
    ensures !LooksLikeFounders(p.name) ==> a.color == OtherColor && a.content == OtherMessage
  {
    var founders := LooksLikeFounders(p.name);
    Payload(
      if founders then FoundersMessage else OtherMessage,
      p.name,
      p.link,
      "Precio: " + p.price + "\nEstado: " + p.stock,
      if founders then FoundersColor else OtherColor,
      p.img)
  }

  /** The messages posted for a list of products: one each, in order, or none without a webhook. */
  function Outbox(webhook: Option<string>, ps: seq<Product>): (msgs: seq<Payload>)
    ensures Configured(webhook) ==> |msgs| == |ps| && forall i :: 0 <= i < |ps| ==> msgs[i] == AlertFor(ps[i])
    ensures !Configured(webhook) ==> msgs == []
  {
    if Configured(webhook) then seq(|ps|, i requires 0 <= i < |ps| => AlertFor(ps[i])) else []
  }

  /** A partner-brand card only passes the filter by saying "founder", so it always raises the red alert. */
  lemma {:induction false} PartnerCandidateAlertsAsFounders(raw: RawItem)
    requires Admit(raw).Some? && IsThirdPartyBrand(raw.name)
    ensures AlertFor(Admit(raw).value).color == FoundersColor
    ensures AlertFor(Admit(raw).value).content == FoundersMessage
  {
  }

  // ---------------------------------------------------------------------------
  // One run of the monitor
  // ---------------------------------------------------------------------------

  /** The monitor's durable effects: the seen-list file and the messages posted so far. */
  class Monitor {
    const webhook: Option<string>
    var file: SeenFile
    var sent: seq<Payload>

    constructor (webhook: Option<string>, file: SeenFile)
      ensures this.webhook == webhook && this.file == file && sent == []
    {
      this.webhook := webhook;
      this.file := file;
      sent := [];
    }

    /** `notificar_discord`: post one alert, or nothing when no webhook is set. */
    method Notify(p: Product)
      modifies this`sent
      ensures sent == old(sent) + Outbox(webhook, [p])
    {
      if Configured(webhook) {
        sent := sent + [AlertFor(p)];
      }
    }

    /** The `for p in nuevos: notificar_discord(p)` loop: one post per product, in order. */
    method NotifyAll(ps: seq<Product>)
      modifies this`sent
      ensures sent == old(sent) + Outbox(webhook, ps)
    {
      for i := 0 to |ps|
        invariant sent == old(sent) + Outbox(webhook, ps[..i])
      {
        assert ps[..i + 1] == ps[..i] + [ps[i]];
        Notify(ps[i]);
      }
      assert ps[..|ps|] == ps;
    }

    /**
     * `check_ldlc`. The browser waits for at least one product block, so an
     * unreachable page and an empty listing both end the run with no effect.
     */
    method CheckLdlc(page: Page)
      modifies this`file, this`sent
      ensures page.Unreachable? || page.items == [] ==> file == old(file) && sent == old(sent)
      ensures page.Listed? && page.items != [] ==>
                var found := Candidates(page.items);
                var prior := LoadSeen(old(file));
                && sent == old(sent) + Outbox(webhook, Fresh(found, prior))
                && file == if ShouldSave(found, prior) then Saved(Ids(found)) else old(file)
    {
      if page.Unreachable? || page.items == [] {
        return;
      }
      var found := CollectCandidates(page.items);
      var prior := LoadSeen(file);
      var unseen, seen, save := Reconcile(found, prior);
      NotifyAll(unseen);
      if save {
        file := Saved(seen);
      }
    }
  }

  /** Two runs on the same page have the effect of one: the second posts nothing and leaves the file alone. */
  method CheckTwice(m: Monitor, page: Page)
    modifies m
    ensures !(page.Listed? && page.items != []) ==> m.file == old(m.file) && m.sent == old(m.sent)
    ensures page.Listed? && page.items != [] ==>
              var found := Candidates(page.items);
              var prior := LoadSeen(old(m.file));
              && m.sent == old(m.sent) + Outbox(m.webhook, Fresh(found, prior))
              && m.file == if ShouldSave(found, prior) then Saved(Ids(found)) else old(m.file)
  {
    m.CheckLdlc(page);
    if page.Listed? && page.items != [] {
      SecondRunIsQuiet(Candidates(page.items), LoadSeen(old(m.file)));
    }
    m.CheckLdlc(page);
  }
}
