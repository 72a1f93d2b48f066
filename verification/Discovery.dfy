/** Turning a provider's model list into catalogue entries, and above all its prices. */
module Discovery {
  import opened Sequences
  import opened Models

  datatype Pricing = Pricing(
    prompt: Option<real>,
    completion: Option<real>,
    input: Option<real>,
    output: Option<real>,
    unit: string,
    currency: string)

  datatype Row = Row(id: string, pricing: Option<Pricing>, contextLength: int)

  datatype DiscoveredModel = DiscoveredModel(
    provider: string,
    model: string,
    inputCost: real,
    outputCost: real,
    priceKnown: bool,
    contextLength: int)

  /** Readings of the unit and currency fields, left uninterpreted. */
  datatype Units = Units(
    blank: string -> bool,
    perMillion: string -> bool,
    dollars: string -> bool)

  /** Input and output price per million tokens, or nothing usable. */
  function PerMillion(pricing: Option<Pricing>, units: Units): Option<(real, real)> {
    if pricing.None? then None
    else
      var p := pricing.value;
      if p.currency != "" && !units.dollars(p.currency) then None
      else if p.input.Some? && p.output.Some? then
        if units.perMillion(p.unit) then Some((p.input.value, p.output.value))
        else if units.blank(p.unit) then None
        else Some((p.input.value * 1000000.0, p.output.value * 1000000.0))
      else if p.prompt.Some? && p.completion.Some? then
        if units.perMillion(p.unit) then Some((p.prompt.value, p.completion.value))
        else Some((p.prompt.value * 1000000.0, p.completion.value * 1000000.0))
      else None
  }

  function FromRow(provider: string, row: Row, units: Units): DiscoveredModel {
    var price := PerMillion(row.pricing, units);
    if price.Some? && price.value.0 >= 0.0 && price.value.1 >= 0.0
    then DiscoveredModel(provider, row.id, price.value.0, price.value.1, true, row.contextLength)
    else DiscoveredModel(provider, row.id, 0.0, 0.0, false, row.contextLength)
  }

  function FromDiscovered(m: DiscoveredModel): Profile {
    Profile(m.model, m.provider, 0, m.inputCost, m.outputCost, [], 0, m.priceKnown, Reliability(0, 0, 0))
  }

  /** One entry of the list that declares methods instead of prices. */
  datatype Offer = Offer(name: string, methods: seq<string>)

  const MODELS_PREFIX := "models/"

  function TrimPrefix(name: string): string {
    if MODELS_PREFIX <= name then name[|MODELS_PREFIX|..] else name
  }

  /** Entries without an id are dropped, and so are those whose declared methods rule out chat. */
  predicate Offered(offer: Offer, sameFold: (string, string) -> bool) {
    TrimPrefix(offer.name) != "" && (offer.methods == [] || Chats(offer.methods, sameFold))
  }

  predicate Chats(methods: seq<string>, sameFold: (string, string) -> bool) {
    exists i :: 0 <= i < |methods| && ChatMethod(methods[i], sameFold)
  }

  predicate ChatMethod(m: string, sameFold: (string, string) -> bool) {
    sameFold(m, "generateContent") || sameFold(m, "streamGenerateContent")
  }

  method SupportsChat(methods: seq<string>, sameFold: (string, string) -> bool) returns (r: bool)
    ensures r <==> methods == [] || Chats(methods, sameFold)
  {
    if |methods| == 0 {
      return true;
    }
    for i := 0 to |methods|
      invariant forall j :: 0 <= j < i ==> !ChatMethod(methods[j], sameFold)
    {
      if ChatMethod(methods[i], sameFold) {
        return true;
      }
    }
    return false;
  }

  /** An offer carries an id and nothing else: in particular, no price. */
  function Bare(offer: Offer): Row {
    Row(TrimPrefix(offer.name), None, 0)
  }

  /** What a provider's answer lists: its rows with an id, then its offers that can chat. */
  function ListedRows(rows: seq<Row>, offers: seq<Offer>, blank: string -> bool, sameFold: (string, string) -> bool): seq<Row> {
    Filter((r: Row) => !blank(r.id), rows) + Map(Bare, Filter((o: Offer) => Offered(o, sameFold), offers))
  }

  function Reading(provider: string, units: Units): Row -> DiscoveredModel {
    (r: Row) => FromRow(provider, r, units)
  }

  /** Both loops over a provider's answer; every model it yields is one row of the answer, under that provider. */
  method ListModels(provider: string, rows: seq<Row>, offers: seq<Offer>, blank: string -> bool,
                    sameFold: (string, string) -> bool, units: Units)
    returns (out: seq<DiscoveredModel>)
    ensures out == Map(Reading(provider, units), ListedRows(rows, offers, blank, sameFold))
    ensures forall m :: m in out ==> m.provider == provider
  {
    out := [];
    var keep := (r: Row) => !blank(r.id);
    for i := 0 to |rows|
      invariant out == Map(Reading(provider, units), Filter(keep, rows[..i]))
    {
      assert rows[..i + 1] == rows[..i] + [rows[i]];
      FilterSnoc(keep, rows[..i], rows[i]);
      if !blank(rows[i].id) {
        out := out + [FromRow(provider, rows[i], units)];
      }
    }
    assert rows[..|rows|] == rows;
    var more := ListOffers(provider, offers, sameFold, units);
    MapAppend(Reading(provider, units), Filter(keep, rows), Map(Bare, Filter((o: Offer) => Offered(o, sameFold), offers)));
    out := out + more;
  }

  /** The second loop of ListModels. */
  method ListOffers(provider: string, offers: seq<Offer>, sameFold: (string, string) -> bool, units: Units)
    returns (out: seq<DiscoveredModel>)
    ensures out == Map(Reading(provider, units), Map(Bare, Filter((o: Offer) => Offered(o, sameFold), offers)))
  {
    out := [];
    var keep := (o: Offer) => Offered(o, sameFold);
    for i := 0 to |offers|
      invariant out == Map(Reading(provider, units), Map(Bare, Filter(keep, offers[..i])))
    {
      assert offers[..i + 1] == offers[..i] + [offers[i]];
      FilterSnoc(keep, offers[..i], offers[i]);
      var id := TrimPrefix(offers[i].name);
      var chats := SupportsChat(offers[i].methods, sameFold);
      if id != "" && chats {
        out := out + [DiscoveredModel(provider, id, 0.0, 0.0, false, 0)];
      }
    }
    assert offers[..|offers|] == offers;
  }

  // ---- prices ----

  /** The row states both of its prices as zero, in dollars, at a scale that is known. */
  predicate PublishesZero(row: Row, units: Units) {
    && row.pricing.Some?
    && var p := row.pricing.value;
    && (p.currency == "" || units.dollars(p.currency))
    && if p.input.Some? && p.output.Some?
       then p.input.value == 0.0 && p.output.value == 0.0 && (units.perMillion(p.unit) || !units.blank(p.unit))
       else p.prompt == Some(0.0) && p.completion == Some(0.0)
  }

  /** Nothing but two published zeroes makes a listed model free. */
  lemma FreeOnlyWhenPublishedZero(provider: string, row: Row, units: Units)
    ensures FromDiscovered(FromRow(provider, row, units)).Free() <==> PublishesZero(row, units)
  {
    if row.pricing.Some? {
      var p := row.pricing.value;
      if p.input.Some? { ScaleKeepsZero(p.input.value); }
      if p.output.Some? { ScaleKeepsZero(p.output.value); }
      if p.prompt.Some? { ScaleKeepsZero(p.prompt.value); }
      if p.completion.Some? { ScaleKeepsZero(p.completion.value); }
    }
  }

  /** A listed model as it was filed, whatever has been measured of it since. */
  function Unmeasured(p: Profile): Profile {
    p.(observed := 0, reliability := Reliability(0, 0, 0))
  }

  /** The profile is what this row of the provider's answer reads as, measurements apart. */
  predicate ReadFrom(provider: string, p: Profile, row: Row, units: Units) {
    Unmeasured(p) == FromDiscovered(FromRow(provider, row, units))
  }

  /** Such a profile is filed under the provider that sent the row, and free exactly if the row publishes two zeroes. */
  lemma ReadFromMeans(provider: string, p: Profile, row: Row, units: Units)
    requires ReadFrom(provider, p, row, units)
    ensures p.provider == provider && p.model == row.id
    ensures p.Free() <==> PublishesZero(row, units)
  {
    FreeOnlyWhenPublishedZero(provider, row, units);
    assert p.Free() == Unmeasured(p).Free();
  }

  lemma ScaleKeepsZero(x: real)
    ensures x * 1000000.0 == 0.0 <==> x == 0.0
  {}

  /** Prices per prompt and completion token are a million times theirs, unless the unit is a million tokens already. */
  lemma TokenPrices(provider: string, id: string, prompt: real, completion: real, unit: string, length: int, units: Units)
    requires prompt >= 0.0 && completion >= 0.0
    ensures var p := FromDiscovered(FromRow(provider, Row(id, Some(Pricing(Some(prompt), Some(completion), None, None, unit, "")), length), units));
      && p.provider == provider && p.model == id && p.priceKnown && p.tasks == [] && p.reliability.attempts == 0
      && (units.perMillion(unit) ==> p.inputCost == prompt && p.outputCost == completion)
      && (!units.perMillion(unit) ==> p.inputCost == 1000000.0 * prompt && p.outputCost == 1000000.0 * completion)
  {}

  /** Input and output prices mean nothing without a unit; where they are stated they win over prompt and completion. */
  lemma StatedPrices(provider: string, row: Row, input: real, output: real, units: Units)
    requires input >= 0.0 && output >= 0.0
    requires row.pricing.Some? && row.pricing.value.input == Some(input) && row.pricing.value.output == Some(output)
    requires row.pricing.value.currency == "" || units.dollars(row.pricing.value.currency)
    ensures var p, unit := FromDiscovered(FromRow(provider, row, units)), row.pricing.value.unit;
      && (units.perMillion(unit) ==> p.priceKnown && p.inputCost == input && p.outputCost == output)
      && (!units.perMillion(unit) && units.blank(unit) ==> !p.priceKnown && p.inputCost == p.outputCost == 0.0)
      && (!units.perMillion(unit) && !units.blank(unit) ==>
            p.priceKnown && p.inputCost == 1000000.0 * input && p.outputCost == 1000000.0 * output)
  {}

  /** Another currency, a negative price or half a price is no price. */
  lemma NoPrice(provider: string, row: Row, units: Units)
    requires row.pricing.Some? ==>
      var p := row.pricing.value;
      || (p.currency != "" && !units.dollars(p.currency))
      || ((p.input.None? || p.output.None?) && (p.prompt.None? || p.completion.None?))
      || (p.input.None? && p.prompt.Some? && p.prompt.value < 0.0)
      || (p.input.Some? && p.output.Some? && (p.input.value < 0.0 || p.output.value < 0.0))
    ensures var m := FromRow(provider, row, units);
      m == DiscoveredModel(provider, row.id, 0.0, 0.0, false, row.contextLength)
  {
    if row.pricing.Some? {
      var p := row.pricing.value;
      if p.input.Some? { ScaleKeepsSign(p.input.value); }
      if p.output.Some? { ScaleKeepsSign(p.output.value); }
      if p.prompt.Some? { ScaleKeepsSign(p.prompt.value); }
    }
  }

  lemma ScaleKeepsSign(x: real)
    ensures x < 0.0 <==> x * 1000000.0 < 0.0
  {}

  /** One of the declared methods is a chat. */
  predicate DeclaresChat(methods: seq<string>, sameFold: (string, string) -> bool) {
    exists m :: m in methods && (sameFold(m, "generateContent") || sameFold(m, "streamGenerateContent"))
  }

  /** An entry counts when something is left of its name after "models/" and it declares a chat or no methods at all. */
  lemma OfferCounts(offer: Offer, id: string, sameFold: (string, string) -> bool)
    ensures offer.name == "models/" + id ==> Bare(offer) == Row(id, None, 0)
    ensures offer.name == "models/" + id ==>
      (Offered(offer, sameFold) <==> id != "" && (offer.methods == [] || DeclaresChat(offer.methods, sameFold)))
    ensures !("models/" <= offer.name) ==> Bare(offer) == Row(offer.name, None, 0)
  {
    if DeclaresChat(offer.methods, sameFold) {
      var m :| m in offer.methods && (sameFold(m, "generateContent") || sameFold(m, "streamGenerateContent"));
      var i :| 0 <= i < |offer.methods| && offer.methods[i] == m;
      assert ChatMethod(offer.methods[i], sameFold);
    }
  }

  /** Rows come first and offers after them; a row stays exactly if its id is not blank. */
  lemma RowsFirst(rows: seq<Row>, offers: seq<Offer>, blank: string -> bool, sameFold: (string, string) -> bool, row: Row)
    ensures Filter((r: Row) => !blank(r.id), rows) <= ListedRows(rows, offers, blank, sameFold)
    ensures row in rows && !blank(row.id) ==> row in ListedRows(rows, offers, blank, sameFold)
    ensures offers == [] && row in ListedRows(rows, offers, blank, sameFold) ==> row in rows && !blank(row.id)
  {
    FilterMember((r: Row) => !blank(r.id), rows, row);
    if row in Filter((r: Row) => !blank(r.id), rows) {
      var i :| 0 <= i < |Filter((r: Row) => !blank(r.id), rows)| && Filter((r: Row) => !blank(r.id), rows)[i] == row;
      assert ListedRows(rows, offers, blank, sameFold)[i] == row;
    }
  }
}
