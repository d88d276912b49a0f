/**
 * The payments of rental properties (`payments.ts`): one array kept under a
 * single storage key, appended to, updated and spliced in place, and
 * searched by id, by date and by property and month.
 */
module Payments {
  import Lists

  /** A registered payment. `observations` is the optional property of the record. */
  datatype Payment = Payment(
    id: string,
    propertyId: string,
    date: string,
    amount: real,
    observations: Lists.Option<string>,
    createdAt: string,
    updatedAt: string)

  /** What the payment form supplies: everything but the id and the timestamps. */
  datatype PaymentFormData = PaymentFormData(
    propertyId: string,
    date: string,
    amount: real,
    observations: Lists.Option<string>)

  /** A call that returns a value or throws an error with a message. */
  datatype Outcome<T> = Ok(value: T) | Thrown(message: string)

  const NoHayPagos: string := "No hay pagos registrados"
  const PagoNoEncontrado: string := "Pago no encontrado"

  /** The test `pago.id === id`. */
  function HasId(id: string): Payment -> bool {
    (p: Payment) => p.id == id
  }

  /** The test `payment.date === date`. */
  function OnDate(date: string): Payment -> bool {
    (p: Payment) => p.date == date
  }

  /**
   * The test of `getPaymentsByMonth`: the property matches and the payment's
   * date falls in `year` and `month`. `dateParts` stands for reading the
   * full year and the zero-based month off `new Date(date)`.
   */
  function InMonth(propertyId: string, year: int, month: int, dateParts: string -> (int, int)): Payment -> bool {
    (p: Payment) => p.propertyId == propertyId && dateParts(p.date) == (year, month)
  }

  /**
   * `{ id, ...paymentData, createdAt, updatedAt }`: a new record carrying the
   * form's fields, stamped with two separate clock reads.
   */
  function NewPayment(id: string, data: PaymentFormData, createdAt: string, updatedAt: string): (p: Payment)
    ensures p.id == id && p.createdAt == createdAt && p.updatedAt == updatedAt
    ensures PaymentFormData(p.propertyId, p.date, p.amount, p.observations) == data
  {
    Payment(id, data.propertyId, data.date, data.amount, data.observations, createdAt, updatedAt)
  }

  /**
   * `{ ...pagos[index], ...paymentData, updatedAt }`: the form's fields
   * replace the stored ones (an absent `observations` keeps the stored one),
   * the id and the creation time stay, and the update time is renewed.
   */
  function Merge(current: Payment, data: PaymentFormData, now: string): (p: Payment)
    ensures p.id == current.id && p.createdAt == current.createdAt && p.updatedAt == now
    ensures p.propertyId == data.propertyId && p.date == data.date && p.amount == data.amount
    ensures p.observations == if data.observations.Some? then data.observations else current.observations
  {
    Payment(
      current.id, data.propertyId, data.date, data.amount,
      if data.observations.Some? then data.observations else current.observations,
      current.createdAt, now)
  }

  /** `hasPaymentOnDate`: whether some payment in the list falls on `date`. */
  function HasPaymentOnDate(payments: seq<Payment>, date: string): (b: bool)
    ensures b <==> exists k :: 0 <= k < |payments| && payments[k].date == date
  {
    Lists.AnyMatch(payments, OnDate(date))
  }

  /** `getPaymentByDate`: the first payment in the list that falls on `date`, if any. */
  function GetPaymentByDate(payments: seq<Payment>, date: string): (r: Lists.Option<Payment>)
    ensures r.Some? ==> r.value.date == date && r.value in payments
    ensures r.Some? ==> exists i :: 0 <= i < |payments| && payments[i] == r.value && forall k :: 0 <= k < i ==> payments[k].date != date
  {
    Lists.Find(payments, OnDate(date))
  }

  /** The two date queries agree: a payment is found on a date exactly when the list has one on that date. */
  lemma PaymentByDateIffHasPayment(payments: seq<Payment>, date: string)
    ensures GetPaymentByDate(payments, date).Some? <==> HasPaymentOnDate(payments, date)
  {}

  /** The array as the functions read it: the stored one, or none at all. */
  class PaymentStore {
    /** Whether the storage holds the `pagos` key. */
    var stored: bool
    var pagos: seq<Payment>

    /** A fresh storage with no `pagos` key. */
    constructor ()
      ensures !stored && pagos == []
    {
      stored := false;
      pagos := [];
    }

    /** The list the operations start from: the stored array, or the empty list when there is none. */
    function Stored(): seq<Payment>
      reads this
    {
      if stored then pagos else []
    }

    /** `getPaymentsByMonth`: the stored payments of the property in that month. */
    function GetPaymentsByMonth(propertyId: string, year: int, month: int, dateParts: string -> (int, int)): (r: seq<Payment>)
      reads this
      ensures forall q :: q in r ==> q in Stored() && q.propertyId == propertyId && dateParts(q.date) == (year, month)
      ensures forall q :: q in Stored() && q.propertyId == propertyId && dateParts(q.date) == (year, month) ==> q in r
    {
      var r := Lists.Filter(Stored(), InMonth(propertyId, year, month, dateParts));
      assert forall k :: 0 <= k < |r| ==> InMonth(propertyId, year, month, dateParts)(r[k]);
      r
    }

    /** `getPaymentById`: the first stored payment with that id, or null. */
    function GetPaymentById(id: string): (r: Lists.Option<Payment>)
      reads this
      ensures r.None? <==> forall k :: 0 <= k < |Stored()| ==> Stored()[k].id != id
      ensures r.Some? ==> exists i :: 0 <= i < |Stored()| && Stored()[i] == r.value && r.value.id == id && forall k :: 0 <= k < i ==> Stored()[k].id != id
    {
      var r := Lists.Find(Stored(), HasId(id));
      if r.None? then
        assert forall k :: 0 <= k < |Stored()| ==> !HasId(id)(Stored()[k]);
        r
      else r
    }

    /** `createPayment`: the new record is pushed at the end of the stored list (or of an empty one), which is then stored. */
    method CreatePayment(paymentData: PaymentFormData, newId: string, createdAt: string, updatedAt: string) returns (nuevoPago: Payment)
      modifies this
      ensures nuevoPago == NewPayment(newId, paymentData, createdAt, updatedAt)
      ensures stored && pagos == old(Stored()) + [nuevoPago]
    {
      var list := Stored();
      nuevoPago := NewPayment(newId, paymentData, createdAt, updatedAt);
      list := list + [nuevoPago];
      pagos := list;
      stored := true;
    }

    /**
     * `updatePayment`: throws when nothing is stored or no payment has the
     * id; otherwise the first payment with the id is merged with the form and
     * returned, and no other entry changes.
     */
    method UpdatePayment(id: string, paymentData: PaymentFormData, now: string) returns (r: Outcome<Payment>)
      modifies this
      ensures !old(stored) ==> r == Thrown(NoHayPagos) && stored == old(stored) && pagos == old(pagos)
      ensures old(stored) && Lists.FindIndex(old(pagos), HasId(id)) == -1 ==>
        r == Thrown(PagoNoEncontrado) && stored && pagos == old(pagos)
      ensures old(stored) && Lists.FindIndex(old(pagos), HasId(id)) != -1 ==>
        var i := Lists.FindIndex(old(pagos), HasId(id));
        && stored
        && pagos == old(pagos)[i := Merge(old(pagos)[i], paymentData, now)]
        && r == Ok(pagos[i])
    {
      if !stored {
        return Thrown(NoHayPagos);
      }
      var index := Lists.FindIndex(pagos, HasId(id));
      if index == -1 {
        return Thrown(PagoNoEncontrado);
      }
      pagos := pagos[index := Merge(pagos[index], paymentData, now)];
      r := Ok(pagos[index]);
    }

    /**
     * `deletePayment`: throws when nothing is stored or no payment has the
     * id; otherwise the first payment with the id is spliced out.
     */
    method DeletePayment(id: string) returns (r: Outcome<()>)
      modifies this
      ensures !old(stored) ==> r == Thrown(NoHayPagos) && stored == old(stored) && pagos == old(pagos)
      ensures old(stored) && Lists.FindIndex(old(pagos), HasId(id)) == -1 ==>
        r == Thrown(PagoNoEncontrado) && stored && pagos == old(pagos)
      ensures old(stored) && Lists.FindIndex(old(pagos), HasId(id)) != -1 ==>
        var i := Lists.FindIndex(old(pagos), HasId(id));
        && r == Ok(())
        && stored
        && pagos == old(pagos)[..i] + old(pagos)[i + 1..]
    {
      if !stored {
        return Thrown(NoHayPagos);
      }
      var index := Lists.FindIndex(pagos, HasId(id));
      if index == -1 {
        return Thrown(PagoNoEncontrado);
      }
      pagos := pagos[..index] + pagos[index + 1..];
      r := Ok(());
    }
  }

  /** The ids of a list, in order. */
  function Ids(ps: seq<Payment>): (ids: seq<string>)
    ensures |ids| == |ps| && forall k :: 0 <= k < |ps| ==> ids[k] == ps[k].id
  {
    if ps == [] then [] else [ps[0].id] + Ids(ps[1..])
  }

  /**
   * An update at the first index with `id` keeps the length and every id, and
   * a lookup of `id` afterwards finds the merged record.
   */
  lemma UpdateThenFind(ps: seq<Payment>, id: string, data: PaymentFormData, now: string)
    requires Lists.FindIndex(ps, HasId(id)) != -1
    ensures
      var i := Lists.FindIndex(ps, HasId(id));
      var next := ps[i := Merge(ps[i], data, now)];
      && |next| == |ps|
      && Ids(next) == Ids(ps)
      && Lists.Find(next, HasId(id)) == Lists.Some(Merge(ps[i], data, now))
  {
    var i := Lists.FindIndex(ps, HasId(id));
    var next := ps[i := Merge(ps[i], data, now)];
    assert forall k :: 0 <= k < |ps| ==> next[k].id == ps[k].id;
    assert Lists.FindIndex(next, HasId(id)) == i;
  }

  /**
   * Deleting at the first index with `id` removes exactly one entry: the
   * length drops by one, the rest keep their order, and the removed entry
   * had the id.
   */
  lemma DeleteRemovesOne(ps: seq<Payment>, id: string)
    requires Lists.FindIndex(ps, HasId(id)) != -1
    ensures
      var i := Lists.FindIndex(ps, HasId(id));
      var next := ps[..i] + ps[i + 1..];
      && |next| == |ps| - 1
      && ps[i].id == id
      && multiset(next) + multiset{ps[i]} == multiset(ps)
  {
    var i := Lists.FindIndex(ps, HasId(id));
    assert ps == ps[..i] + [ps[i]] + ps[i + 1..];
  }

  /** When ids are unique, a payment deleted by id can no longer be found. */
  lemma DeleteThenNotFound(ps: seq<Payment>, id: string)
    requires Lists.FindIndex(ps, HasId(id)) != -1
    requires forall a, b :: 0 <= a < b < |ps| ==> ps[a].id != ps[b].id
    ensures
      var i := Lists.FindIndex(ps, HasId(id));
      Lists.Find(ps[..i] + ps[i + 1..], HasId(id)).None?
  {}

  /** A month's list holds each stored payment of that property and month as many times as it is stored, and nothing else. */
  lemma MonthCounts(store: PaymentStore, propertyId: string, year: int, month: int, dateParts: string -> (int, int))
    ensures var r := store.GetPaymentsByMonth(propertyId, year, month, dateParts);
      forall q :: multiset(r)[q] == (if q.propertyId == propertyId && dateParts(q.date) == (year, month) then multiset(store.Stored())[q] else 0)
  {
    Lists.FilterCounts(store.Stored(), InMonth(propertyId, year, month, dateParts));
  }

  /** A month's list keeps the stored order: it reads the stored list at the matching positions, in increasing order. */
  lemma MonthKeepsOrder(store: PaymentStore, propertyId: string, year: int, month: int, dateParts: string -> (int, int))
    ensures Lists.PicksAt(store.GetPaymentsByMonth(propertyId, year, month, dateParts), store.Stored(),
      Lists.Kept(store.Stored(), InMonth(propertyId, year, month, dateParts), 0))
  {
    Lists.FilterPicksKept(store.Stored(), InMonth(propertyId, year, month, dateParts), 0);
    assert store.Stored()[0..] == store.Stored();
  }

  /** Creating a payment extends each month's list by the new payment exactly when it belongs to that month. */
  lemma CreateExtendsMonth(ps: seq<Payment>, p: Payment, propertyId: string, year: int, month: int, dateParts: string -> (int, int))
    ensures
      var test := InMonth(propertyId, year, month, dateParts);
      Lists.Filter(ps + [p], test) == Lists.Filter(ps, test) + (if test(p) then [p] else [])
  {
    var test := InMonth(propertyId, year, month, dateParts);
    Lists.FilterAppend(ps, [p], test);
    assert [p][1..] == [];
  }
}
