/**
 * Parsed JSON values and the few pieces of JavaScript semantics the relay and
 * the chat page apply to them: property lookup, truthiness (`!x`, `x || y`)
 * and string conversion (template literals, `new Error(x)`).
 *
 * A number is represented by the string `String(n)` gives for it (so zero,
 * and negative zero, is "0"): its truthiness and that string are all the
 * relay and the page ever observe of a number. `NaN` cannot come out of
 * `JSON.parse`. The model only ever meets such canonical texts: `JNum("0.0")`
 * or `JNum("-0")` stand for no parsed value, and `Truthy` compares with "0"
 * on that understanding.
 */
module Json {
  import opened Options

  datatype JsonValue =
    | JNull
    | JBool(b: bool)
    | JNum(text: string)
    | JStr(s: string)
    | JArr(items: seq<JsonValue>)
    | JObj(members: seq<(string, JsonValue)>)

  /** `key` is the name of some member of `members`. */
  ghost predicate HasKey(members: seq<(string, JsonValue)>, key: string) {
    exists i :: 0 <= i < |members| && members[i].0 == key
  }

  /**
   * Member lookup in an object as `JSON.parse` builds it: when a key occurs
   * more than once, the last occurrence wins.
   */
  function Lookup(members: seq<(string, JsonValue)>, key: string): Option<JsonValue> {
    if |members| == 0 then None
    else if members[|members| - 1].0 == key then Some(members[|members| - 1].1)
    else Lookup(members[..|members| - 1], key)
  }

  /**
   * A lookup finds a value exactly when some member has the key, and the
   * value found is that of the last such member.
   */
  lemma {:induction false} LookupFindsLastMember(members: seq<(string, JsonValue)>, key: string)
    ensures Lookup(members, key).Some? <==> HasKey(members, key)
    ensures Lookup(members, key).Some? ==>
              exists i :: 0 <= i < |members| && members[i] == (key, Lookup(members, key).value)
                          && forall k :: i < k < |members| ==> members[k].0 != key
    decreases |members|
  {
    if |members| > 0 && members[|members| - 1].0 != key {
      var front := members[..|members| - 1];
      LookupFindsLastMember(front, key);
      if HasKey(members, key) {
        var i :| 0 <= i < |members| && members[i].0 == key;
        assert front[i].0 == key;
      }
      if Lookup(front, key).Some? {
        var i :| 0 <= i < |front| && front[i] == (key, Lookup(front, key).value)
                 && forall k :: i < k < |front| ==> front[k].0 != key;
        assert members[i] == front[i];
      }
    }
  }

  /** Appending a member either answers a lookup of its key or leaves the lookup as it was. */
  lemma LookupAppend(members: seq<(string, JsonValue)>, key: string, value: JsonValue, probe: string)
    ensures Lookup(members + [(key, value)], probe) == if probe == key then Some(value) else Lookup(members, probe)
  {
    assert (members + [(key, value)])[..|members|] == members;
  }

  /**
   * `j.key` for a parsed JSON value `j` that is not `null`: only objects have
   * the own properties the relay and the page read; on strings, numbers,
   * booleans and arrays those names are `undefined`.
   */
  function Get(j: JsonValue, key: string): Option<JsonValue> {
    match j
    case JObj(members) => Lookup(members, key)
    case _ => None
  }

  /** JavaScript truthiness of a JSON value. */
  predicate Truthy(j: JsonValue) {
    match j
    case JNull => false
    case JBool(b) => b
    case JNum(text) => text != "0"
    case JStr(s) => s != ""
    case JArr(_) => true
    case JObj(_) => true
  }

  /** JavaScript truthiness of a property that may be `undefined`. */
  predicate TruthyField(o: Option<JsonValue>) {
    o.Some? && Truthy(o.value)
  }

  /** Truthiness of an optional string such as an environment variable. */
  predicate Present(o: Option<string>) {
    o.Some? && o.value != ""
  }

  /**
   * `String(j)`, as a template literal or `new Error(j)` applies it, or `None`
   * where that conversion throws a TypeError. Arrays join their elements with
   * "," and print `null` elements as the empty string. An object prints as
   * "[object Object]" unless it has an own `toString` member: parsed JSON holds
   * no functions, so that member is not callable, the conversion falls back to
   * `valueOf` (an own member that is not callable either, or the inherited one,
   * which returns the object itself), and no primitive value comes out.
   */
  function ToJsString(j: JsonValue): Option<string>
    decreases j, 1
  {
    match j
    case JNull => Some("null")
    case JBool(b) => Some(if b then "true" else "false")
    case JNum(text) => Some(text)
    case JStr(s) => Some(s)
    case JArr(items) => JoinItems(j, 0)
    case JObj(members) => if Lookup(members, "toString").Some? then None else Some("[object Object]")
  }

  /**
   * The elements of the array `parent` from index `from` on, joined as
   * `Array.prototype.join` does; `None` as soon as one element's conversion
   * throws.
   */
  function JoinItems(parent: JsonValue, from: nat): Option<string>
    requires parent.JArr? && from <= |parent.items|
    decreases parent, 0, |parent.items| - from
  {
    if from == |parent.items| then Some("")
    else
      var item := parent.items[from];
      var head := if item.JNull? then Some("") else ToJsString(item);
      if head.None? then None
      else if from + 1 == |parent.items| then head
      else
        match JoinItems(parent, from + 1)
        case None => None
        case Some(tail) => Some(head.value + "," + tail)
  }

  /** An object converts to "[object Object]" exactly when it has no `toString` member of its own. */
  lemma ObjectToJsString(members: seq<(string, JsonValue)>)
    ensures ToJsString(JObj(members)).None? <==> HasKey(members, "toString")
    ensures ToJsString(JObj(members)).Some? ==> ToJsString(JObj(members)).value == "[object Object]"
  {
    LookupFindsLastMember(members, "toString");
  }

  /** Joining the elements from `from` on throws exactly when one of those elements' conversion throws. */
  lemma {:induction false} JoinItemsFails(parent: JsonValue, from: nat)
    requires parent.JArr? && from <= |parent.items|
    ensures JoinItems(parent, from).None? <==>
              exists k :: from <= k < |parent.items| && ToJsString(parent.items[k]).None?
    decreases |parent.items| - from
  {
    if from < |parent.items| {
      JoinItemsFails(parent, from + 1);
      if ToJsString(parent.items[from]).None? {
        assert !parent.items[from].JNull?;
      }
    }
  }

  /** An array converts to a string exactly when each of its elements does. */
  lemma ArrayToJsString(items: seq<JsonValue>)
    ensures ToJsString(JArr(items)).Some? <==> forall k :: 0 <= k < |items| ==> ToJsString(items[k]).Some?
  {
    JoinItemsFails(JArr(items), 0);
  }

  /** The relay's error envelope `{ error: message }`. */
  function Envelope(message: string): JsonValue {
    JObj([("error", JStr(message))])
  }

  /** `j` is an error envelope whose message is a non-empty string. */
  predicate IsEnvelope(j: JsonValue) {
    j.JObj? && |j.members| == 1 && j.members[0].0 == "error"
    && j.members[0].1.JStr? && j.members[0].1.s != ""
  }
}
