/**
 The operations on keys that the replicated and the sharded store share.  Characters of a key stand for
 its bytes.
 */
module KvOps {
  import KeyValues

  type Table = map<string, string>

  datatype Err = OK | ErrNoKey | ErrWrongGroup | ErrWrongConfig | ErrNotReady

  datatype Reply = Reply(value: string, err: Err)

  datatype Op =
    | Get(key: string)
    | Put(key: string, value: string, client: int, seqId: int)
    | Append(key: string, value: string, client: int, seqId: int)

  /** The last write of a client. */
  datatype Last = Last(seqId: int, reply: Reply)

  type DupTable = map<int, Last>

  function Lookup(kv: Table, key: string): Reply {
    if key in kv then Reply(kv[key], OK) else Reply("", ErrNoKey)
  }

  function Write(kv: Table, op: Op): Table
    requires !op.Get?
  {
    match op
    case Put(k, v, _, _) => kv[k := v]
    case Append(k, v, _, _) => kv[k := (if k in kv then kv[k] else "") + v]
  }

  // ---------- In terms of the list of writes ----------

  function EditOf(op: Op): KeyValues.Edit {
    match op
    case Get(_) => KeyValues.Other
    case Put(key, value, _, _) => KeyValues.Put(key, value)
    case Append(key, value, _, _) => KeyValues.Append(key, value)
  }

  /** What a Get is to be answered after these writes. */
  ghost function AnswerTo(edits: seq<KeyValues.Edit>, key: string): Reply {
    if KeyValues.Written(edits, key) then Reply(KeyValues.ValueOf(edits, key), OK) else Reply("", ErrNoKey)
  }

  /** The table answers as the list of writes demands. */
  ghost predicate Reflects(kv: Table, edits: seq<KeyValues.Edit>) {
    forall key {:trigger Lookup(kv, key)} :: Lookup(kv, key) == AnswerTo(edits, key)
  }

  lemma BlankReflects()
    ensures Reflects(map[], [])
  {
  }

  /** One more write. */
  lemma WriteReflects(kv: Table, edits: seq<KeyValues.Edit>, op: Op)
    requires Reflects(kv, edits) && !op.Get?
    ensures Reflects(Write(kv, op), edits + [EditOf(op)])
  {
    forall key ensures Lookup(Write(kv, op), key) == AnswerTo(edits + [EditOf(op)], key) {
      KeyValues.ValueMore(edits, EditOf(op), key);
      assert Lookup(kv, key) == AnswerTo(edits, key);
      if op.key == key && key !in kv {
        NeverWritten(edits, key);
      }
    }
  }

  lemma NeverWritten(edits: seq<KeyValues.Edit>, key: string)
    requires !KeyValues.Written(edits, key)
    ensures KeyValues.ValueOf(edits, key) == ""
  {
    KeyValues.UnwrittenIsEmpty(edits, key, 0);
  }

  /** Something that is not a write changes no answer. */
  lemma OtherReflects(kv: Table, edits: seq<KeyValues.Edit>)
    requires Reflects(kv, edits)
    ensures Reflects(kv, edits + [KeyValues.Other])
  {
    forall key ensures Lookup(kv, key) == AnswerTo(edits + [KeyValues.Other], key) {
      KeyValues.ValueMore(edits, KeyValues.Other, key);
    }
  }

  predicate Duplicated(dup: DupTable, client: int, seqId: int) {
    client in dup && seqId <= dup[client].seqId
  }
}
