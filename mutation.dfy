/** The item mutations of `src/resolvers/Mutation.js`. None of them
    consults the request context; each hands one or more requests to the
    store. */
module Mutation {
  import opened Wrappers
  import opened Schema

  /** A GraphQL argument value. */
  datatype Value = Text(s: string) | Number(n: int)

  /** The name of the identifier field. */
  const ID_KEY: string := "id"

  /** The requests a mutation hands to the store. */
  datatype StoreCall =
    | DbCreate(data: map<string, Value>)
    | DbUpdate(data: map<string, Value>, where: Option<Value>)
    | DbFind(where: Option<Value>)
    | DbDelete(where: Option<Value>)

  /** A JavaScript object whose properties can be deleted in place. */
  class Record {
    var fields: map<string, Value>

    constructor (fields: map<string, Value>)
      ensures this.fields == fields
    {
      this.fields := fields;
    }

    /** `{...this}`: a new object with the same properties. */
    method Copy() returns (r: Record)
      ensures fresh(r) && r.fields == fields
    {
      r := new Record(fields);
    }

    /** `delete this[key]`; deleting an absent key changes nothing. */
    method Delete(key: string)
      modifies this
      ensures fields == old(fields) - {key}
    {
      fields := fields - {key};
    }
  }

  /** The value of `args.id` (undefined when the field is absent). */
  function TargetId(args: map<string, Value>): (r: Option<Value>)
    ensures r.Some? <==> ID_KEY in args
    ensures r.Some? ==> r.value == args[ID_KEY]
  {
    if ID_KEY in args then Some(args[ID_KEY]) else None
  }

  /** The update patch: every field of `args` except the identifier. */
  function Patch(args: map<string, Value>): (r: map<string, Value>)
    ensures ID_KEY !in r
    ensures forall k :: k in r <==> k in args && k != ID_KEY
    ensures forall k :: k in r ==> r[k] == args[k]
  {
    args - {ID_KEY}
  }

  /** `createItem`: the arguments are passed through as the new item's data. */
  function CreateItem(ctx: Context, args: map<string, Value>): (r: Result<seq<StoreCall>, Error>)
    ensures r.Ok? && |r.value| == 1 && r.value[0].DbCreate? && r.value[0].data == args
  {
    Ok([DbCreate(args)])
  }

  /** `updateItem`: copy the arguments, delete `id` from the copy, and ask
      the store to update the item `args.id` with what is left. */
  method UpdateItem(ctx: Context, args: Record) returns (r: Result<seq<StoreCall>, Error>)
    ensures unchanged(args)
    ensures r == Ok([DbUpdate(Patch(args.fields), TargetId(args.fields))])
  {
    var updates := args.Copy();
    updates.Delete(ID_KEY);
    r := Ok([DbUpdate(updates.fields, TargetId(args.fields))]);
  }

  /** `deleteItem`: look the item `args.id` up (the answer is not used),
      then delete it. */
  function DeleteItem(ctx: Context, args: map<string, Value>): (r: Result<seq<StoreCall>, Error>)
    ensures r.Ok? && |r.value| == 2
    ensures r.value[0] == DbFind(TargetId(args)) && r.value[1] == DbDelete(TargetId(args))
  {
    var where := TargetId(args);
    Ok([DbFind(where), DbDelete(where)])
  }

  /** No item mutation checks login, ownership or permissions: each one
      succeeds, and does the same thing, whoever calls it. */
  lemma MutationsUnguarded(ctx: Context, other: Context, args: map<string, Value>)
    ensures CreateItem(ctx, args).Ok? && CreateItem(other, args) == CreateItem(ctx, args)
    ensures DeleteItem(ctx, args).Ok? && DeleteItem(other, args) == DeleteItem(ctx, args)
  {
  }

  /** The update patch never mentions the identifier, and applying it then
      restoring the identifier gives back the arguments. */
  lemma PatchRestoresArgs(args: map<string, Value>)
    requires ID_KEY in args
    ensures Patch(args)[ID_KEY := args[ID_KEY]] == args
  {
  }
}
