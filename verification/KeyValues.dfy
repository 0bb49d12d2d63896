/**
 What a key holds after a list of writes, said of the list alone: the last value put, followed by what was appended
 to it since.
 */
module KeyValues {

  /** A write to a key, or something else. */
  datatype Edit = Put(key: string, value: string) | Append(key: string, value: string) | Other

  predicate Puts(e: Edit, key: string) {
    e.Put? && e.key == key
  }

  predicate Appends(e: Edit, key: string) {
    e.Append? && e.key == key
  }

  /** Where the key was last put; -1 if it never was. */
  function LastPut(edits: seq<Edit>, key: string): (p: int)
    ensures -1 <= p < |edits| && (p >= 0 ==> Puts(edits[p], key))
    ensures forall j :: p < j < |edits| ==> !Puts(edits[j], key)
  {
    if edits == [] then -1
    else if Puts(edits[|edits| - 1], key) then |edits| - 1
    else LastPut(edits[..|edits| - 1], key)
  }

  /** What is appended to the key from position i on, the earliest first. */
  function Appended(edits: seq<Edit>, key: string, i: nat): string
    requires i <= |edits|
    decreases |edits| - i
  {
    if i == |edits| then "" else (if Appends(edits[i], key) then edits[i].value else "") + Appended(edits, key, i + 1)
  }

  function ValueOf(edits: seq<Edit>, key: string): string {
    var p := LastPut(edits, key);
    (if p >= 0 then edits[p].value else "") + Appended(edits, key, p + 1)
  }

  /** Some write names the key. */
  ghost predicate Written(edits: seq<Edit>, key: string) {
    exists i :: 0 <= i < |edits| && (Puts(edits[i], key) || Appends(edits[i], key))
  }

  lemma {:induction false} AppendedMore(edits: seq<Edit>, e: Edit, key: string, i: nat)
    requires i <= |edits|
    ensures Appended(edits + [e], key, i) == Appended(edits, key, i) + if Appends(e, key) then e.value else ""
    decreases |edits| - i
  {
    if i < |edits| {
      AppendedMore(edits, e, key, i + 1);
      var first := if Appends(edits[i], key) then edits[i].value else "";
      var last := if Appends(e, key) then e.value else "";
      assert first + (Appended(edits, key, i + 1) + last) == first + Appended(edits, key, i + 1) + last;
    } else {
      assert Appended(edits + [e], key, i + 1) == "";
    }
  }

  lemma LastPutMore(edits: seq<Edit>, e: Edit, key: string)
    ensures LastPut(edits + [e], key) == if Puts(e, key) then |edits| else LastPut(edits, key)
  {
    assert (edits + [e])[..|edits|] == edits;
  }

  lemma WrittenMore(edits: seq<Edit>, e: Edit, key: string)
    ensures Written(edits + [e], key) <==> Written(edits, key) || Puts(e, key) || Appends(e, key)
  {
    var more := edits + [e];
    assert more[|edits|] == e;
    if i :| 0 <= i < |edits| && (Puts(edits[i], key) || Appends(edits[i], key)) {
      assert more[i] == edits[i];
    }
  }

  /** One more write. */
  lemma ValueMore(edits: seq<Edit>, e: Edit, key: string)
    ensures ValueOf(edits + [e], key) ==
              if Puts(e, key) then e.value
              else if Appends(e, key) then ValueOf(edits, key) + e.value
              else ValueOf(edits, key)
    ensures Written(edits + [e], key) <==> Written(edits, key) || Puts(e, key) || Appends(e, key)
  {
    var p := LastPut(edits, key);
    LastPutMore(edits, e, key);
    WrittenMore(edits, e, key);
    if !Puts(e, key) {
      AppendedMore(edits, e, key, p + 1);
      assert p >= 0 ==> (edits + [e])[p] == edits[p];
      var first, last := if p >= 0 then edits[p].value else "", if Appends(e, key) then e.value else "";
      assert first + (Appended(edits, key, p + 1) + last) == first + Appended(edits, key, p + 1) + last;
    }
  }

  lemma {:induction false} UnwrittenIsEmpty(edits: seq<Edit>, key: string, i: nat)
    requires !Written(edits, key) && i <= |edits|
    ensures Appended(edits, key, i) == "" && LastPut(edits, key) == -1
    decreases |edits| - i
  {
    if i < |edits| {
      UnwrittenIsEmpty(edits, key, i + 1);
    }
  }
}
