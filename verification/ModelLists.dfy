/** Keeping the catalogue's lists in step with what providers answer. */
module ModelLists {
  import opened Sequences
  import opened Models
  import opened Discovery
  import opened Catalogue

  /** What a provider sent back when asked what it serves. */
  datatype Answer = Answer(rows: seq<Row>, offers: seq<Offer>)

  /** Readings of a list's strings, left uninterpreted. */
  datatype Readings = Readings(blank: string -> bool, sameFold: (string, string) -> bool, units: Units)

  function RowsOf(answer: Option<Answer>, r: Readings): seq<Row> {
    if answer.None? then [] else ListedRows(answer.value.rows, answer.value.offers, r.blank, r.sameFold)
  }

  /** A provider that does not answer, or answers with nothing usable, keeps its previous list. */
  method RefreshOne(catalog: Catalog, provider: string, answer: Option<Answer>, r: Readings)
    modifies catalog`discovered, catalog`answers
    ensures var rows := RowsOf(answer, r);
      if rows == [] then catalog.discovered == old(catalog.discovered) && catalog.answers == old(catalog.answers)
      else
        && catalog.discovered == old(catalog.discovered)[provider := Map(FromDiscovered, Map(Reading(provider, r.units), rows))]
        && catalog.answers == old(catalog.answers)[provider := rows]
    ensures old(AsAnswered(catalog.discovered, catalog.answers, r.units)) ==> AsAnswered(catalog.discovered, catalog.answers, r.units)
  {
    if answer.None? {
      return;
    }
    var models := ListModels(provider, answer.value.rows, answer.value.offers, r.blank, r.sameFold, r.units);
    if |models| == 0 {
      return;
    }
    catalog.SetDiscovered(provider, models, RowsOf(answer, r));
  }

  /** A provider whose key is gone loses its list; any other is asked again. */
  method RefreshProvider(catalog: Catalog, provider: string, keys: map<string, string>, answer: Option<Answer>, r: Readings)
    modifies catalog`discovered, catalog`answers
    ensures !Keyed(keys, provider) ==>
      catalog.discovered == old(catalog.discovered) - {provider} && catalog.answers == old(catalog.answers) - {provider}
    ensures Keyed(keys, provider) && RowsOf(answer, r) != [] ==>
      && catalog.discovered == old(catalog.discovered)[provider := Map(FromDiscovered, Map(Reading(provider, r.units), RowsOf(answer, r)))]
      && catalog.answers == old(catalog.answers)[provider := RowsOf(answer, r)]
    ensures Keyed(keys, provider) && RowsOf(answer, r) == [] ==>
      catalog.discovered == old(catalog.discovered) && catalog.answers == old(catalog.answers)
    ensures old(AsAnswered(catalog.discovered, catalog.answers, r.units)) ==> AsAnswered(catalog.discovered, catalog.answers, r.units)
  {
    if !Keyed(keys, provider) {
      catalog.ForgetDiscovered(provider);
    } else {
      RefreshOne(catalog, provider, answer, r);
    }
  }
}
