/** JavaScript values as the session code sees them: optional values
    (`undefined`), JSON values produced by `JSON.parse`, truthiness,
    property reads and the `String(...)` conversion applied by
    `URLSearchParams.set`. */
module Js {

  /** `None` stands for `undefined`. */
  datatype Option<+T> = None | Some(value: T)

  /** A value or a thrown error. */
  datatype Result<+T, +E> = Ok(value: T) | Err(error: E)

  /** A value `JSON.parse` can produce. A number carries its canonical
      JavaScript text (`String(n)`), so both zeros are "0". An object keeps
      its members in source order, duplicates included. */
  datatype Json =
    | JNull
    | JBool(b: bool)
    | JNum(text: string)
    | JStr(s: string)
    | JArr(items: seq<Json>)
    | JObj(members: seq<(string, Json)>)

  /** JavaScript truthiness of a JSON value: null, false, 0 and "" are falsy. */
  predicate Truthy(v: Json)
  {
    match v
    case JNull => false
    case JBool(b) => b
    case JNum(t) => t != "0"
    case JStr(s) => s != ""
    case JArr(_) => true
    case JObj(_) => true
  }

  /** Truthiness of a value that may be `undefined`. */
  predicate TruthyProp(o: Option<Json>)
  {
    o.Some? && Truthy(o.value)
  }

  /** Truthiness of a string that may be `undefined`: only "" is a falsy string. */
  predicate Present(s: Option<string>)
  {
    s.Some? && s.value != ""
  }

  /** Reading `m[k]` from a string-valued record; `None` is `undefined`. */
  function Lookup(m: map<string, string>, k: string): Option<string>
  {
    if k in m then Some(m[k]) else None
  }

  /** The value `JSON.parse` keeps for key `k`: that of the last member with that name. */
  function LastMember(ms: seq<(string, Json)>, k: string): Option<Json>
  {
    if ms == [] then None
    else if ms[|ms| - 1].0 == k then Some(ms[|ms| - 1].1)
    else LastMember(ms[..|ms| - 1], k)
  }

  /** Member `i` is the last one named `k`. */
  predicate IsLastMember(ms: seq<(string, Json)>, i: int, k: string)
  {
    0 <= i < |ms| && ms[i].0 == k && forall j :: i < j < |ms| ==> ms[j].0 != k
  }

  /** `LastMember` finds a member exactly when one has the name, and the one
      it finds has no later namesake. */
  lemma {:induction false} LastMemberIsLast(ms: seq<(string, Json)>, k: string)
    ensures LastMember(ms, k).Some? <==> exists i :: 0 <= i < |ms| && ms[i].0 == k
    ensures LastMember(ms, k).Some? ==>
              exists i :: IsLastMember(ms, i, k) && ms[i].1 == LastMember(ms, k).value
  {
    if ms == [] {
    } else if ms[|ms| - 1].0 == k {
      assert IsLastMember(ms, |ms| - 1, k);
    } else {
      var front := ms[..|ms| - 1];
      LastMemberIsLast(front, k);
      if LastMember(front, k).Some? {
        var i :| IsLastMember(front, i, k) && front[i].1 == LastMember(front, k).value;
        assert ms[i] == front[i];
        assert IsLastMember(ms, i, k);
      } else {
        forall i | 0 <= i < |ms|
          ensures ms[i].0 != k
        {
          if i < |front| {
            assert ms[i] == front[i];
          }
        }
      }
    }
  }

  /** Whichever member is the last one named `k`, `LastMember` returns its value. */
  lemma LastMemberAt(ms: seq<(string, Json)>, k: string)
    ensures forall i :: IsLastMember(ms, i, k) ==> LastMember(ms, k) == Some(ms[i].1)
  {
    LastMemberIsLast(ms, k);
    forall i | IsLastMember(ms, i, k)
      ensures LastMember(ms, k) == Some(ms[i].1)
    {
      var i0 :| IsLastMember(ms, i0, k) && ms[i0].1 == LastMember(ms, k).value;
      assert !(i < i0) && !(i0 < i);
    }
  }

  /** The property read `v.k`: only objects have the properties this code
      reads; on any other value the read is `undefined`. */
  function Prop(v: Json, k: string): Option<Json>
  {
    match v
    case JObj(ms) => LastMember(ms, k)
    case _ => None
  }

  /** `xs.join(sep)` for an array of strings. */
  function Join(xs: seq<string>, sep: string): string
  {
    if xs == [] then ""
    else if |xs| == 1 then xs[0]
    else xs[0] + sep + Join(xs[1..], sep)
  }

  /** `String(v)`: the text `URLSearchParams.set` stores for a JSON value,
      or None where the conversion throws a TypeError. An object prints as
      "[object Object]" unless it has its own `toString` member: a parsed
      value is never callable, so the conversion then finds no usable
      method. Arrays print their elements joined by ",", with null elements
      empty. */
  function Text(v: Json): Option<string>
    decreases v, 1
  {
    match v
    case JNull => Some("null")
    case JBool(b) => Some(if b then "true" else "false")
    case JNum(t) => Some(t)
    case JStr(s) => Some(s)
    case JArr(_) => ElementsText(v, 0)
    case JObj(ms) => if LastMember(ms, "toString").Some? then None else Some("[object Object]")
  }

  /** The elements of the array `whole` from index `from` on, each printed
      (null as the empty string) and joined by ","; None as soon as one of
      them cannot be printed. */
  function ElementsText(whole: Json, from: nat): Option<string>
    requires whole.JArr? && from <= |whole.items|
    decreases whole, 0, |whole.items| - from
  {
    if from == |whole.items| then Some("")
    else
      var item := whole.items[from];
      assert item in whole.items;
      var t := if item == JNull then Some("") else Text(item);
      if t.None? then None
      else if from + 1 == |whole.items| then t
      else
        match ElementsText(whole, from + 1)
        case None => None
        case Some(rest) => Some(t.value + "," + rest)
  }

  /** The values `String(...)` cannot convert: an object with a member named
      `toString`, or an array holding such a value at any depth. */
  predicate Unprintable(v: Json)
  {
    match v
    case JObj(ms) => exists i :: 0 <= i < |ms| && ms[i].0 == "toString"
    case JArr(items) => exists i :: 0 <= i < |items| && Unprintable(items[i])
    case _ => false
  }

  /** `String(v)` throws exactly on the unprintable values, and a string
      converts to itself. */
  lemma {:induction false} TextFailsExactlyOnUnprintable(v: Json)
    ensures Text(v).None? <==> Unprintable(v)
    ensures v.JStr? ==> Text(v) == Some(v.s)
    decreases v, 1
  {
    match v
    case JObj(ms) => LastMemberIsLast(ms, "toString");
    case JArr(_) => ElementsTextFailsExactly(v, 0);
    case _ =>
  }

  /** The array case of `TextFailsExactlyOnUnprintable`, element by element. */
  lemma {:induction false} ElementsTextFailsExactly(whole: Json, from: nat)
    requires whole.JArr? && from <= |whole.items|
    ensures ElementsText(whole, from).None? <==>
              exists i :: from <= i < |whole.items| && Unprintable(whole.items[i])
    decreases whole, 0, |whole.items| - from
  {
    if from < |whole.items| {
      var item := whole.items[from];
      assert item in whole.items;
      if item != JNull {
        TextFailsExactlyOnUnprintable(item);
      }
      if from + 1 < |whole.items| {
        ElementsTextFailsExactly(whole, from + 1);
      }
    }
  }
}
