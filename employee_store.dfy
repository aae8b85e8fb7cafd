/**
 * The employees collection and the create, update, delete and list routes
 * of backend/routes/employees.js. The collection is a map from `_id` to
 * record plus the ids in insertion (natural) order; MongoDB's unique index
 * on `email` is the invariant that no two records share an email.
 */
module EmployeeStore {
  import opened Wrappers
  import opened Json
  import opened ServerErrors
  import opened EmployeeValidation
  import opened EmployeeModel
  import opened EmployeeQuery

  /** An `:id` route parameter: a well-formed ObjectId (a number here) or text that does not parse as one. */
  datatype IdArg = ObjectId(id: nat) | Malformed(text: string)

  /** The success body of create, update and delete: the record it carries, if any, and the fixed message. */
  datatype Reply = Reply(data: Option<Employee>, message: string)

  const CreatedMessage: string := "Employee created successfully"
  const UpdatedMessage: string := "Employee updated successfully"
  const DeletedMessage: string := "Employee deleted successfully"

  /** What the handlers throw for an id that names no record. */
  function EmployeeNotFound(): (c: Caught)
    ensures c.own == NotFoundError(Some("Employee")) && c.own.message == "Employee not found"
    ensures OfKind(c.own, NotFound) && !Recognised(c)
  {
    Thrown(NotFoundError(Some("Employee")))
  }

  /** Some record other than `except` already holds `email`. */
  predicate EmailTaken(records: map<nat, Employee>, email: string, except: Option<nat>)
  {
    exists id :: id in records && records[id].email == email && Some(id) != except
  }

  /** The records listed by `order`, in that order. */
  function DocsOf(records: map<nat, Employee>, order: seq<nat>): (docs: seq<Employee>)
    requires forall i :: 0 <= i < |order| ==> order[i] in records
    ensures |docs| == |order|
    ensures forall i :: 0 <= i < |order| ==> docs[i] == records[order[i]]
  {
    if order == [] then [] else [records[order[0]]] + DocsOf(records, order[1..])
  }

  /** `order` without `id`. */
  function Without(order: seq<nat>, id: nat): (r: seq<nat>)
    ensures forall x :: x in r <==> x in order && x != id
    ensures |r| <= |order|
  {
    if order == [] then []
    else (if order[0] == id then [] else [order[0]]) + Without(order[1..], id)
  }

  lemma {:induction false} WithoutKeepsDistinct(order: seq<nat>, id: nat)
    requires Distinct(order)
    ensures Distinct(Without(order, id))
    decreases |order|
  {
    if order != [] {
      WithoutKeepsDistinct(order[1..], id);
      var rest := Without(order[1..], id);
      assert order[0] !in rest by {
        assert order[0] !in order[1..];
      }
    }
  }

  predicate Distinct(s: seq<nat>)
  {
    forall i, j :: 0 <= i < j < |s| ==> s[i] != s[j]
  }

  // ---------------------------------------------------------------- what each route does

  /**
   * `POST /`: the validator, then `new Employee(body)` (casts and setters),
   * then `save()`, which checks the required paths and then the unique index.
   */
  function CreateOutcome(records: map<nat, Employee>, b: EmployeeBody, isEmail: string -> bool, id: nat, now: int): (o: Outcome<Reply>)
    ensures ValidateEmployee(b, isEmail).Some? ==> o == Threw(Thrown(ValidateEmployee(b, isEmail).value))
    ensures Violations(b, isEmail) == [] && RequiredIssues(DraftOf(b)) != [] ==>
              o == Threw(SchemaFailure(RequiredIssues(DraftOf(b))))
    ensures Violations(b, isEmail) == [] && RequiredIssues(DraftOf(b)) == [] && EmailTaken(records, DraftOf(b).email.value, None) ==>
              o == Threw(DuplicateKey("email"))
    ensures o.Ok? <==> Violations(b, isEmail) == [] && RequiredIssues(DraftOf(b)) == []
                       && !EmailTaken(records, DraftOf(b).email.value, None)
    ensures o.Ok? ==> && o.status == 201 && o.value.message == CreatedMessage
                      && o.value.data == Some(Materialise(DraftOf(b), id, now))
                      && var e := o.value.data.value;
                      && e.id == id && e.createdAt == now && e.updatedAt == now && WellFormed(e)
                      && !EmailTaken(records, e.email, None)
  {
    match ValidateEmployee(b, isEmail)
    case Some(err) => Threw(Thrown(err))
    case None =>
      var d := DraftOf(b);
      var issues := RequiredIssues(d);
      if issues != [] then Threw(SchemaFailure(issues))
      else
        var e := Materialise(d, id, now);
        if EmailTaken(records, e.email, None) then Threw(DuplicateKey("email"))
        else Ok(201, Reply(Some(e), CreatedMessage))
  }

  /**
   * `PUT /:id`: the validator, then `findByIdAndUpdate`, which casts the id,
   * finds no document (NotFound) or writes the cast body over it, subject to
   * the unique index; schema validators do not run on this path.
   */
  function UpdateOutcome(records: map<nat, Employee>, arg: IdArg, b: EmployeeBody, isEmail: string -> bool, now: int): (o: Outcome<Reply>)
    ensures ValidateEmployee(b, isEmail).Some? ==> o == Threw(Thrown(ValidateEmployee(b, isEmail).value))
    ensures ValidateEmployee(b, isEmail).None? && arg.Malformed? ==> o == Threw(BadObjectId())
    ensures ValidateEmployee(b, isEmail).None? && arg.ObjectId? && arg.id !in records ==> o == Threw(EmployeeNotFound())
    ensures Violations(b, isEmail) == [] && arg.ObjectId? && arg.id in records
              && EmailTaken(records, Merged(records[arg.id], DraftOf(b), now).email, Some(arg.id)) ==>
              o == Threw(DuplicateKey("email"))
    ensures o.Ok? <==> Violations(b, isEmail) == [] && arg.ObjectId? && arg.id in records
                       && !EmailTaken(records, Merged(records[arg.id], DraftOf(b), now).email, Some(arg.id))
    ensures o.Ok? ==> && o.status == 200 && o.value.message == UpdatedMessage && arg.ObjectId? && arg.id in records
                      && o.value.data == Some(Merged(records[arg.id], DraftOf(b), now))
                      && !EmailTaken(records, o.value.data.value.email, Some(arg.id))
  {
    match ValidateEmployee(b, isEmail)
    case Some(err) => Threw(Thrown(err))
    case None =>
      match arg
      case Malformed(_) => Threw(BadObjectId())
      case ObjectId(id) =>
        if id !in records then Threw(EmployeeNotFound())
        else
          var e := Merged(records[id], DraftOf(b), now);
          if EmailTaken(records, e.email, Some(id)) then Threw(DuplicateKey("email"))
          else Ok(200, Reply(Some(e), UpdatedMessage))
  }

  /** `DELETE /:id`: `findByIdAndDelete`, with NotFound when nothing was deleted. */
  function DeleteOutcome(records: map<nat, Employee>, arg: IdArg): (o: Outcome<Reply>)
    ensures arg.Malformed? ==> o == Threw(BadObjectId())
    ensures arg.ObjectId? && arg.id !in records ==> o == Threw(EmployeeNotFound())
    ensures o.Ok? <==> arg.ObjectId? && arg.id in records
    ensures o.Ok? ==> o.status == 200 && o.value == Reply(None, DeletedMessage)
  {
    match arg
    case Malformed(_) => Threw(BadObjectId())
    case ObjectId(id) =>
      if id !in records then Threw(EmployeeNotFound()) else Ok(200, Reply(None, DeletedMessage))
  }

  /** Deleting a record a second time finds nothing. */
  lemma RepeatedDeleteNotFound(records: map<nat, Employee>, id: nat)
    requires DeleteOutcome(records, ObjectId(id)).Ok?
    ensures DeleteOutcome(records - {id}, ObjectId(id)) == Threw(EmployeeNotFound())
  {
  }

  // ---------------------------------------------------------------- the collection invariant

  /** Each record sits under its own id, has had the setters applied, and has an id below `nextId`. */
  ghost predicate Keyed(records: map<nat, Employee>, nextId: nat)
  {
    forall id :: id in records ==> records[id].id == id && WellFormed(records[id]) && id < nextId
  }

  /** `order` lists every stored id exactly once. */
  ghost predicate Listed(records: map<nat, Employee>, order: seq<nat>)
  {
    && (forall id :: id in records <==> id in order)
    && Distinct(order)
  }

  /** MongoDB's unique index on `email`. */
  ghost predicate UniqueEmails(records: map<nat, Employee>)
  {
    forall a, b :: a in records && b in records && records[a].email == records[b].email ==> a == b
  }

  ghost predicate Invariant(records: map<nat, Employee>, order: seq<nat>, nextId: nat)
  {
    Keyed(records, nextId) && Listed(records, order) && UniqueEmails(records)
  }

  /** Saving a new well-formed record under the next id, with an email nobody holds, keeps the invariant. */
  lemma InsertKeeps(records: map<nat, Employee>, order: seq<nat>, nextId: nat, e: Employee)
    requires Invariant(records, order, nextId)
    requires e.id == nextId && WellFormed(e) && !EmailTaken(records, e.email, None)
    ensures Invariant(records[nextId := e], order + [nextId], nextId + 1)
  {
    InsertKeyed(records, nextId, e);
    InsertListed(records, order, nextId, e);
    InsertUnique(records, e);
  }

  lemma InsertKeyed(records: map<nat, Employee>, nextId: nat, e: Employee)
    requires Keyed(records, nextId) && e.id == nextId && WellFormed(e)
    ensures Keyed(records[nextId := e], nextId + 1)
  {
  }

  lemma InsertListed(records: map<nat, Employee>, order: seq<nat>, nextId: nat, e: Employee)
    requires Keyed(records, nextId) && Listed(records, order)
    ensures Listed(records[nextId := e], order + [nextId])
  {
    assert nextId !in order;
    var o := order + [nextId];
    forall i, j | 0 <= i < j < |o|
      ensures o[i] != o[j]
    {
      if j == |order| {
        assert o[i] in order;
      }
    }
  }

  lemma InsertUnique(records: map<nat, Employee>, e: Employee)
    requires UniqueEmails(records) && e.id !in records && !EmailTaken(records, e.email, None)
    ensures UniqueEmails(records[e.id := e])
  {
    var r := records[e.id := e];
    forall a, b | a in r && b in r && r[a].email == r[b].email
      ensures a == b
    {
      if a != e.id && b != e.id {
        assert records[a].email == records[b].email;
      }
    }
  }

  /** Writing a well-formed record over an existing one, with an email no other record holds, keeps the invariant. */
  lemma ReplaceKeeps(records: map<nat, Employee>, order: seq<nat>, nextId: nat, id: nat, e: Employee)
    requires Invariant(records, order, nextId)
    requires id in records && e.id == id && WellFormed(e) && !EmailTaken(records, e.email, Some(id))
    ensures Invariant(records[id := e], order, nextId)
  {
    ReplaceKeyed(records, nextId, id, e);
    ReplaceUnique(records, id, e);
  }

  lemma ReplaceKeyed(records: map<nat, Employee>, nextId: nat, id: nat, e: Employee)
    requires Keyed(records, nextId) && id in records && e.id == id && WellFormed(e)
    ensures Keyed(records[id := e], nextId)
  {
  }

  lemma ReplaceUnique(records: map<nat, Employee>, id: nat, e: Employee)
    requires UniqueEmails(records) && !EmailTaken(records, e.email, Some(id))
    ensures UniqueEmails(records[id := e])
  {
    var r := records[id := e];
    forall a, b | a in r && b in r && r[a].email == r[b].email
      ensures a == b
    {
      if a != id && b != id {
        assert records[a].email == records[b].email;
      }
    }
  }

  /** Removing a record and its id keeps the invariant. */
  lemma RemoveKeeps(records: map<nat, Employee>, order: seq<nat>, nextId: nat, id: nat)
    requires Invariant(records, order, nextId)
    ensures Invariant(records - {id}, Without(order, id), nextId)
  {
    RemoveKeyed(records, nextId, id);
    RemoveListed(records, order, id);
    RemoveUnique(records, id);
  }

  lemma RemoveKeyed(records: map<nat, Employee>, nextId: nat, id: nat)
    requires Keyed(records, nextId)
    ensures Keyed(records - {id}, nextId)
  {
  }

  lemma RemoveListed(records: map<nat, Employee>, order: seq<nat>, id: nat)
    requires Listed(records, order)
    ensures Listed(records - {id}, Without(order, id))
  {
    WithoutKeepsDistinct(order, id);
  }

  lemma RemoveUnique(records: map<nat, Employee>, id: nat)
    requires UniqueEmails(records)
    ensures UniqueEmails(records - {id})
  {
  }

  class Collection {
    var records: map<nat, Employee>
    var order: seq<nat>
    var nextId: nat

    /** The collection's invariant over its current fields. */
    ghost predicate Valid()
      reads this
    {
      Invariant(records, order, nextId)
    }

    /** The documents in natural order, as `find` sees them. */
    function Docs(): (docs: seq<Employee>)
      reads this
      requires Valid()
      ensures |docs| == |order|
    {
      DocsOf(records, order)
    }

    constructor ()
      ensures Valid() && records == map[] && order == [] && nextId == 0
    {
      records := map[];
      order := [];
      nextId := 0;
    }

    method Create(b: EmployeeBody, isEmail: string -> bool, now: int) returns (o: Outcome<Reply>)
      requires Valid()
      modifies this
      ensures Valid()
      ensures o == CreateOutcome(old(records), b, isEmail, old(nextId), now)
      ensures o.Ok? ==> records == old(records)[old(nextId) := o.value.data.value] && order == old(order) + [old(nextId)]
      ensures !o.Ok? ==> records == old(records) && order == old(order)
      ensures nextId == if o.Ok? then old(nextId) + 1 else old(nextId)
    {
      o := CreateOutcome(records, b, isEmail, nextId, now);
      if o.Ok? {
        var e := o.value.data.value;
        InsertKeeps(records, order, nextId, e);
        records := records[nextId := e];
        order := order + [nextId];
        nextId := nextId + 1;
      }
    }

    method Update(arg: IdArg, b: EmployeeBody, isEmail: string -> bool, now: int) returns (o: Outcome<Reply>)
      requires Valid()
      modifies this
      ensures Valid()
      ensures o == UpdateOutcome(old(records), arg, b, isEmail, now)
      ensures o.Ok? ==> records == old(records)[arg.id := o.value.data.value]
      ensures !o.Ok? ==> records == old(records)
      ensures order == old(order) && nextId == old(nextId)
    {
      o := UpdateOutcome(records, arg, b, isEmail, now);
      if o.Ok? {
        MergedWellFormed(records[arg.id], b, now);
        ReplaceKeeps(records, order, nextId, arg.id, o.value.data.value);
        records := records[arg.id := o.value.data.value];
      }
    }

    method Delete(arg: IdArg) returns (o: Outcome<Reply>)
      requires Valid()
      modifies this
      ensures Valid()
      ensures o == DeleteOutcome(old(records), arg)
      ensures o.Ok? ==> records == old(records) - {arg.id} && order == Without(old(order), arg.id)
      ensures !o.Ok? ==> records == old(records) && order == old(order)
      ensures nextId == old(nextId)
    {
      o := DeleteOutcome(records, arg);
      if o.Ok? {
        RemoveKeeps(records, order, nextId, arg.id);
        records := records - {arg.id};
        order := Without(order, arg.id);
      }
    }

    /** `GET /`: the listing of the stored documents for the query. */
    method List(q: ListQuery) returns (r: Listing)
      requires Valid() && Paged(q)
      ensures r == EmployeeQuery.List(Docs(), q)
    {
      r := EmployeeQuery.List(Docs(), q);
    }
  }
}
