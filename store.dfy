/**
 * The two tables the package persists to, and the relations the billable reads through them.
 * Rows are kept in table (insertion) order.
 */
module Store {
  import opened Wrappers
  import opened Values
  import opened Subscriptions

  /** A customers row: the billable's remote identity. `endDate` is the generic-trial end read by trialEndsAt. */
  datatype Customer = Customer(owner: Owner, paystackId: Json, paystackCode: Json, endDate: Option<Time>)

  /** The billable model the traits are mixed into: its key/morph class and its `email` attribute. */
  datatype Billable = Billable(owner: Owner, email: Json)

  /** The first index in `customers` whose row satisfies `owner`, if any. */
  function FirstCustomerOf(customers: seq<Customer>, owner: Owner): (k: Option<nat>)
    ensures k.Some? ==> k.value < |customers| && customers[k.value].owner == owner
                        && forall j :: 0 <= j < k.value ==> customers[j].owner != owner
    ensures k.None? ==> forall j :: 0 <= j < |customers| ==> customers[j].owner != owner
  {
    if customers == [] then None
    else if customers[0].owner == owner then Some(0)
    else match FirstCustomerOf(customers[1..], owner)
      case None => None
      case Some(k) => Some(k + 1)
  }

  /** `$billable->customer`: the morphOne relation. */
  function CustomerOf(customers: seq<Customer>, owner: Owner): (c: Option<Customer>)
    ensures c.Some? ==> c.value in customers && c.value.owner == owner
    ensures c.None? <==> forall j :: 0 <= j < |customers| ==> customers[j].owner != owner
  {
    match FirstCustomerOf(customers, owner)
    case None => None
    case Some(k) => Some(customers[k])
  }

  /** The first customer whose paystack_code equals `code` (`where('paystack_code', $code)->first()`). */
  function FindCustomerByCode(customers: seq<Customer>, code: Json): (k: Option<nat>)
    ensures k.Some? ==> k.value < |customers| && customers[k.value].paystackCode == code
                        && forall j :: 0 <= j < k.value ==> customers[j].paystackCode != code
    ensures k.None? ==> forall j :: 0 <= j < |customers| ==> customers[j].paystackCode != code
  {
    if customers == [] then None
    else if customers[0].paystackCode == code then Some(0)
    else match FindCustomerByCode(customers[1..], code)
      case None => None
      case Some(k) => Some(k + 1)
  }

  /** The first subscription row whose paystack_code equals `code` (`findSubscription`). */
  function FindSubscription(rows: seq<Row>, code: Json): (k: Option<nat>)
    ensures k.Some? ==> k.value < |rows| && rows[k.value].paystackCode == code
                        && forall j :: 0 <= j < k.value ==> rows[j].paystackCode != code
    ensures k.None? ==> forall j :: 0 <= j < |rows| ==> rows[j].paystackCode != code
  {
    if rows == [] then None
    else if rows[0].paystackCode == code then Some(0)
    else match FindSubscription(rows[1..], code)
      case None => None
      case Some(k) => Some(k + 1)
  }

  /** The row at `k` is what findSubscription returns when it has the code and no earlier row does. */
  lemma FindSubscriptionAt(rows: seq<Row>, code: Json, k: nat)
    requires k < |rows| && rows[k].paystackCode == code
    requires forall j :: 0 <= j < k ==> rows[j].paystackCode != code
    ensures FindSubscription(rows, code) == Some(k)
  {
  }

  /**
   * `$billable->subscriptions`: the owner's rows ordered by created_at, newest first. Rows are
   * inserted with created_at = now, so newest first is reverse table order.
   */
  function SubscriptionsOf(rows: seq<Row>, owner: Owner): (s: seq<Row>)
    ensures forall x :: x in s <==> x in rows && x.owner == owner
  {
    if rows == [] then []
    else
      var rest := SubscriptionsOf(rows[..|rows| - 1], owner);
      var last := rows[|rows| - 1];
      assert rows == rows[..|rows| - 1] + [last];
      if last.owner == owner then [last] + rest else rest
  }

  /** A row inserted for an owner becomes the first (newest) element of that owner's relation. */
  lemma {:induction false} InsertIsNewest(rows: seq<Row>, r: Row, owner: Owner)
    ensures SubscriptionsOf(rows + [r], owner)
            == if r.owner == owner then [r] + SubscriptionsOf(rows, owner) else SubscriptionsOf(rows, owner)
  {
    assert (rows + [r])[..|rows + [r]| - 1] == rows;
  }

  /** The owner's rows in table order: the reference the relation's order is stated against. */
  ghost function OwnedRows(rows: seq<Row>, owner: Owner): seq<Row> {
    if rows == [] then []
    else (if rows[0].owner == owner then [rows[0]] else []) + OwnedRows(rows[1..], owner)
  }

  ghost function Reverse<T>(s: seq<T>): seq<T> {
    if s == [] then [] else Reverse(s[1..]) + [s[0]]
  }

  lemma {:induction false} OwnedRowsSnoc(rows: seq<Row>, r: Row, owner: Owner)
    ensures OwnedRows(rows + [r], owner) == OwnedRows(rows, owner) + (if r.owner == owner then [r] else [])
  {
    if rows != [] {
      assert (rows + [r])[1..] == rows[1..] + [r];
      OwnedRowsSnoc(rows[1..], r, owner);
    } else {
      assert OwnedRows([r], owner) == (if r.owner == owner then [r] else []) + OwnedRows([], owner);
    }
  }

  lemma {:induction false} ReverseSnoc<T>(s: seq<T>, t: seq<T>)
    requires |t| <= 1
    ensures Reverse(s + t) == t + Reverse(s)
  {
    if s == [] {
      assert s + t == t;
      if t != [] {
        assert t[1..] == [];
      }
    } else {
      assert (s + t)[1..] == s[1..] + t;
      ReverseSnoc(s[1..], t);
    }
  }

  /** The relation lists the owner's rows newest first: table order reversed. */
  lemma {:induction false} SubscriptionsOfNewestFirst(rows: seq<Row>, owner: Owner)
    ensures SubscriptionsOf(rows, owner) == Reverse(OwnedRows(rows, owner))
  {
    if rows != [] {
      var p, r := rows[..|rows| - 1], rows[|rows| - 1];
      assert rows == p + [r];
      SubscriptionsOfNewestFirst(p, owner);
      InsertIsNewest(p, r, owner);
      OwnedRowsSnoc(p, r, owner);
      ReverseSnoc(OwnedRows(p, owner), if r.owner == owner then [r] else []);
    }
  }

  /** At most one customer row per owner: the unique (billable_id, billable_type) index. */
  ghost predicate UniqueOwners(customers: seq<Customer>) {
    forall i, j :: 0 <= i < j < |customers| ==> customers[i].owner != customers[j].owner
  }

  /** The database: the customers and subscriptions tables. */
  class Database {
    var customers: seq<Customer>
    var subscriptions: seq<Row>

    ghost predicate Valid()
      reads this
    {
      UniqueOwners(customers)
    }

    constructor (customers: seq<Customer>, subscriptions: seq<Row>)
      ensures this.customers == customers && this.subscriptions == subscriptions
    {
      this.customers := customers;
      this.subscriptions := subscriptions;
    }

    /** `customer()->create([...])`: insert, unless the owner already has a row. */
    method InsertCustomer(c: Customer) returns (r: Result<()>)
      requires Valid()
      modifies this
      ensures Valid() && subscriptions == old(subscriptions)
      ensures r.Ok? <==> CustomerOf(old(customers), c.owner).None?
      ensures customers == if r.Ok? then old(customers) + [c] else old(customers)
    {
      if FirstCustomerOf(customers, c.owner).Some? {
        return Err(UniqueViolation);
      }
      customers := customers + [c];
      r := Ok(());
    }

    /** `subscriptions()->create([...])`: insert a row. */
    method InsertSubscription(row: Row)
      modifies this
      ensures customers == old(customers) && subscriptions == old(subscriptions) + [row]
    {
      subscriptions := subscriptions + [row];
    }

    /** `$subscription->save()` on a loaded row: write its attributes back in place. */
    method UpdateSubscription(k: nat, row: Row)
      requires k < |subscriptions|
      modifies this
      ensures customers == old(customers) && subscriptions == old(subscriptions)[k := row]
    {
      subscriptions := subscriptions[k := row];
    }
  }
}
