/**
 * The quotation history (`useHistorialCotizaciones`): a list of saved
 * quotations, newest first, that the hook prepends to, searches by id and
 * filters by id.
 */
module History {
  import Lists
  import Appraisal

  /** A saved quotation: the form and its results, with an id and a display date. */
  datatype HistorialItem = HistorialItem(
    formData: Appraisal.FormData,
    resultados: Appraisal.CalculationResults,
    id: string,
    fecha: string)

  /** The test `item.id === id`. */
  function HasId(id: string): HistorialItem -> bool {
    (item: HistorialItem) => item.id == id
  }

  /** The test `item.id !== id`. */
  function OtherId(id: string): HistorialItem -> bool {
    (item: HistorialItem) => item.id != id
  }

  /** `historial.find(item => item.id === id) || null`: the first entry with the id, if any. */
  function FirstWithId(historial: seq<HistorialItem>, id: string): (r: Lists.Option<HistorialItem>)
    ensures r.None? <==> forall k :: 0 <= k < |historial| ==> historial[k].id != id
    ensures r.Some? ==> r.value.id == id && r.value in historial
    ensures r.Some? ==> exists k :: 0 <= k < |historial| && historial[k] == r.value && forall j :: 0 <= j < k ==> historial[j].id != id
  {
    var r := Lists.Find(historial, HasId(id));
    if r.None? then
      assert forall k :: 0 <= k < |historial| ==> !HasId(id)(historial[k]);
      r
    else r
  }

  /** `historial.filter(item => item.id !== id)`: every entry with another id. */
  function WithoutId(historial: seq<HistorialItem>, id: string): (r: seq<HistorialItem>)
    ensures forall k :: 0 <= k < |r| ==> r[k].id != id && r[k] in historial
    ensures forall k :: 0 <= k < |historial| && historial[k].id != id ==> historial[k] in r
  {
    var r := Lists.Filter(historial, OtherId(id));
    assert forall k :: 0 <= k < |r| ==> OtherId(id)(r[k]);
    r
  }

  /** The filter keeps each entry with another id as many times as it occurs, and drops every entry with the id. */
  lemma WithoutIdCounts(historial: seq<HistorialItem>, id: string)
    ensures forall x :: multiset(WithoutId(historial, id))[x] == (if x.id != id then multiset(historial)[x] else 0)
  {
    Lists.FilterCounts(historial, OtherId(id));
  }

  /** The kept entries stay in their order: the result reads the history at the kept positions, in increasing order. */
  lemma WithoutIdKeepsOrder(historial: seq<HistorialItem>, id: string)
    ensures Lists.PicksAt(WithoutId(historial, id), historial, Lists.Kept(historial, OtherId(id), 0))
  {
    Lists.FilterPicksKept(historial, OtherId(id), 0);
    assert historial[0..] == historial;
  }

  /** A search for an id the filter kept gives the same entry as before the filter. */
  lemma {:induction false} WithoutIdKeepsOtherLookups(historial: seq<HistorialItem>, id: string, other: string)
    requires other != id
    ensures FirstWithId(WithoutId(historial, id), other) == FirstWithId(historial, other)
  {
    if historial != [] {
      var rest := historial[1..];
      WithoutIdKeepsOtherLookups(rest, id, other);
      var tail := Lists.Filter(rest, OtherId(id));
      Lists.FindStep(historial, HasId(other));
      if historial[0].id != id {
        var kept := [historial[0]] + tail;
        assert kept[1..] == tail;
        Lists.FindStep(kept, HasId(other));
      }
    }
  }

  /** The hook's state: the stored history, newest first. */
  class Historial {
    var historial: seq<HistorialItem>

    /**
     * The hook starts from the list stored under `cotizador_historial`;
     * `saved` is that list as read back, or `None` when the key is missing,
     * empty or unreadable, in which case the history starts empty.
     */
    constructor (saved: Lists.Option<seq<HistorialItem>>)
      ensures saved.Some? ==> historial == saved.value
      ensures saved.None? ==> historial == []
    {
      historial := if saved.Some? then saved.value else [];
    }

    /** `cargarCotizacion`: the first saved quotation with the id, or null. */
    function CargarCotizacion(id: string): (r: Lists.Option<HistorialItem>)
      reads this
      ensures r.None? <==> forall k :: 0 <= k < |historial| ==> historial[k].id != id
      ensures r.Some? ==> exists k :: 0 <= k < |historial| && historial[k] == r.value && r.value.id == id && forall j :: 0 <= j < k ==> historial[j].id != id
    {
      FirstWithId(historial, id)
    }

    /**
     * `guardarCotizacion`: the form and results, stamped with `id` (the
     * current time as text) and `fecha` (the current date formatted for
     * display), go to the front; the id is returned, and loading it gives
     * back the new entry.
     */
    method GuardarCotizacion(formData: Appraisal.FormData, resultados: Appraisal.CalculationResults, id: string, fecha: string)
      returns (newId: string)
      modifies this
      ensures historial == [HistorialItem(formData, resultados, id, fecha)] + old(historial)
      ensures newId == id
      ensures CargarCotizacion(newId) == Lists.Some(HistorialItem(formData, resultados, id, fecha))
    {
      var nuevaCotizacion := HistorialItem(formData, resultados, id, fecha);
      var nuevoHistorial := [nuevaCotizacion] + historial;
      historial := nuevoHistorial;
      newId := nuevaCotizacion.id;
    }

    /**
     * `eliminarCotizacion`: every entry with the id is dropped; afterwards the
     * id is not found, and every other id finds what it found before.
     */
    method EliminarCotizacion(id: string)
      modifies this
      ensures historial == WithoutId(old(historial), id)
      ensures CargarCotizacion(id).None?
      ensures forall other :: other != id ==> CargarCotizacion(other) == old(CargarCotizacion(other))
    {
      ghost var before := historial;
      historial := WithoutId(historial, id);
      forall other | other != id
        ensures FirstWithId(historial, other) == FirstWithId(before, other)
      {
        WithoutIdKeepsOtherLookups(before, id, other);
      }
    }
  }

  /** Saving then deleting the same id leaves no entry with that id, whatever the history held before. */
  lemma SaveThenDelete(historial: seq<HistorialItem>, item: HistorialItem)
    ensures FirstWithId([item] + historial, item.id) == Lists.Some(item)
    ensures FirstWithId(WithoutId([item] + historial, item.id), item.id).None?
    ensures WithoutId([item] + historial, item.id) == WithoutId(historial, item.id)
  {}
}
