/**
 OutcomeResult<TValue>: a method result wrapped with a success flag, an ordered
 message list, a settable payload, an optional status code and a metadata bag.
 The message list and the metadata bag are heap objects; an outcome derived from
 another one holds the very same objects, so a change made through either
 outcome is seen through both.
 */
module Outcomes {
  import opened Wrappers
  import Formats

  /** The List<string> behind Messages: an ordered, growable list of messages. */
  class MessageList {
    var items: seq<string>

    constructor ()
      ensures items == []
    {
      items := [];
    }

    /** List.Add: appends at the end, order of earlier messages kept. */
    method Add(m: string)
      modifies this
      ensures items == old(items) + [m]
    {
      items := items + [m];
    }
  }

  /** The Dictionary<string, object> behind Keys; values are of the opaque type V. */
  class KeyBag<V> {
    var entries: map<string, V>

    constructor ()
      ensures entries == map[]
    {
      entries := map[];
    }

    /** The indexer's setter: inserts the key or overwrites its value. */
    method Set(key: string, v: V)
      modifies this
      ensures entries == old(entries)[key := v]
    {
      entries := entries[key := v];
    }
  }

  /** What an IOutcome (no payload) exposes to the deriving constructor. */
  datatype BareOutcome<V> = BareOutcome(
    success: bool,
    messages: MessageList,
    statusCode: Option<int>,
    keys: KeyBag<V>)

  /** What an IOutcome<TValue> exposes to the deriving constructor. */
  datatype TypedOutcome<T, V> = TypedOutcome(
    success: bool,
    messages: MessageList,
    value: T,
    statusCode: Option<int>,
    keys: KeyBag<V>)

  /**
   The outcome itself. `defaultValue` parameters stand for default(TValue).
   Only `value` has a public setter; `keys` has no setter at all.
   */
  class OutcomeResult<T, V> {
    var success: bool
    var messages: MessageList
    var value: T
    var statusCode: Option<int>
    const keys: KeyBag<V>

    /** Computed from the flag on every read, never stored. */
    function Failure(): bool
      reads this
    {
      !success
    }

    /** A fresh outcome: the given flag, and every other part empty or defaulted. */
    constructor (success: bool, defaultValue: T)
      ensures this.success == success && Failure() == !success
      ensures fresh(messages) && messages.items == []
      ensures value == defaultValue
      ensures statusCode == None
      ensures fresh(keys) && keys.entries == map[]
    {
      this.success := success;
      messages := new MessageList();
      value := defaultValue;
      statusCode := None;
      keys := new KeyBag<V>();
    }

    /** Derivation from a typed outcome: every field copied, the list and bag shared. */
    constructor FromTyped(outcome: TypedOutcome<T, V>)
      ensures success == outcome.success && Failure() == !outcome.success
      ensures messages == outcome.messages
      ensures value == outcome.value
      ensures statusCode == outcome.statusCode
      ensures keys == outcome.keys
    {
      success := outcome.success;
      messages := outcome.messages;
      value := outcome.value;
      statusCode := outcome.statusCode;
      keys := outcome.keys;
    }

    /** Derivation from a payload-less outcome: the payload silently becomes the default. */
    constructor FromUntyped(outcome: BareOutcome<V>, defaultValue: T)
      ensures success == outcome.success && Failure() == !outcome.success
      ensures messages == outcome.messages
      ensures value == defaultValue
      ensures statusCode == outcome.statusCode
      ensures keys == outcome.keys
    {
      success := outcome.success;
      messages := outcome.messages;
      value := defaultValue;
      statusCode := outcome.statusCode;
      keys := outcome.keys;
    }

    /** This outcome seen through IOutcome<TValue>, as a derivation source. */
    function AsTyped(): TypedOutcome<T, V>
      reads this
    {
      TypedOutcome(success, messages, value, statusCode, keys)
    }

    /** The Value setter: the payload changes and nothing else does. */
    method SetValue(v: T)
      modifies this`value
      ensures value == v
      ensures success == old(success) && Failure() == old(Failure())
      ensures messages == old(messages) && messages.items == old(messages.items)
      ensures statusCode == old(statusCode)
      ensures keys.entries == old(keys.entries)
    {
      value := v;
    }

    /** The messages, each followed by the delimiter (a space when none is given). */
    function ToMultiLine(delimiter: Option<string>): (r: string)
      reads this, messages
      ensures r == [] <==> messages.items == []
      ensures messages.items != [] ==>
        r == Formats.Join(messages.items, Formats.Delimiter(delimiter)) + Formats.Delimiter(delimiter)
    {
      var r := Formats.ToMultiLine(delimiter, messages.items);
      if messages.items == [] then r
      else Formats.MultiLineIsJoinThenDelimiter(delimiter, messages.items); r
    }

    /** The default string conversion: the rendering with no delimiter. */
    function ToString(): (r: string)
      reads this, messages
      ensures r == ToMultiLine(None)
      ensures messages.items != [] ==> r == Formats.Join(messages.items, " ") + " "
    {
      Formats.EmptyDelimiterIsNoDelimiter(messages.items);
      ToMultiLine(Some(""))
    }
  }

  /**
   Typed derivation from an existing outcome is a full-fidelity copy: a new
   object that agrees with the source on every property and renders the same
   for every delimiter, because it holds the source's own list and bag.
   */
  method DeriveFromTyped<T, V>(source: OutcomeResult<T, V>) returns (derived: OutcomeResult<T, V>)
    ensures derived != source
    ensures derived.success == source.success && derived.Failure() == source.Failure()
    ensures derived.value == source.value && derived.statusCode == source.statusCode
    ensures derived.messages == source.messages && derived.keys == source.keys
    ensures forall d :: derived.ToMultiLine(d) == source.ToMultiLine(d)
    ensures derived.ToString() == source.ToString()
  {
    derived := new OutcomeResult<T, V>.FromTyped(source.AsTyped());
  }

  /**
   A fresh successful outcome, one message appended, then a payload assigned:
   the flag, the message, the payload and the rendering are all as expected.
   */
  method FreshOutcomeScenario(m: string, payload: int)
    returns (success: bool, failure: bool, value: int, messages: seq<string>, rendered: string)
    ensures success && !failure
    ensures value == payload
    ensures messages == [m]
    ensures rendered == m + " "
  {
    var o := new OutcomeResult<int, string>(true, 0);
    o.messages.Add(m);
    o.SetValue(payload);
    success, failure, value, messages := o.success, o.Failure(), o.value, o.messages.items;
    rendered := o.ToString();
  }

  /**
   Aliasing: a message appended through the source outcome shows up in the
   outcome derived from it, and a key set through the derived outcome shows up
   in the source.
   */
  method SharedStateScenario<T, V>(flag: bool, defaultValue: T, m: string, key: string, v: V)
    returns (derivedMessages: seq<string>, derivedRendering: string, sourceKeys: map<string, V>)
    ensures derivedMessages == [m]
    ensures derivedRendering == m + " "
    ensures sourceKeys == map[key := v]
  {
    var source := new OutcomeResult<T, V>(flag, defaultValue);
    var derived := new OutcomeResult<T, V>.FromTyped(source.AsTyped());
    source.messages.Add(m);
    derived.keys.Set(key, v);
    derivedMessages := derived.messages.items;
    derivedRendering := derived.ToString();
    sourceKeys := source.keys.entries;
  }

  /**
   Deriving from an outcome whose status code is 404 and whose metadata holds
   "trace" -> "abc" keeps both, whether the source is typed or bare; from the
   bare source the payload is the default.
   */
  method DerivedStatusAndKeysScenario(payload: int)
    returns (typedCode: Option<int>, typedTrace: Option<string>, typedValue: int,
             bareCode: Option<int>, bareTrace: Option<string>, bareValue: int)
    ensures typedCode == Some(404) && typedTrace == Some("abc") && typedValue == payload
    ensures bareCode == Some(404) && bareTrace == Some("abc") && bareValue == 0
  {
    var messages := new MessageList();
    var keys := new KeyBag<string>();
    keys.Set("trace", "abc");
    var typed := new OutcomeResult<int, string>.FromTyped(TypedOutcome(false, messages, payload, Some(404), keys));
    var bare := new OutcomeResult<int, string>.FromUntyped(BareOutcome(false, messages, Some(404), keys), 0);
    typedCode, typedValue := typed.statusCode, typed.value;
    typedTrace := if "trace" in typed.keys.entries then Some(typed.keys.entries["trace"]) else None;
    bareCode, bareValue := bare.statusCode, bare.value;
    bareTrace := if "trace" in bare.keys.entries then Some(bare.keys.entries["trace"]) else None;
  }
}
