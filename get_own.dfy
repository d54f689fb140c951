/** `getOwn(object, key)`: an own property's value, never an inherited one. */
module GetOwn {
  import opened Values

  function GetOwn(fields: map<string, Value>, key: string): (v: Value)
    ensures key in fields ==> v == fields[key]
    ensures key !in fields ==> v == Undefined
  {
    if key in fields then fields[key] else Undefined
  }

  /** Falsy own values (false, 0, '', undefined, null) come back unchanged. */
  lemma FalsyOwnValuesReturned(fields: map<string, Value>, key: string)
    requires key in fields && !Truthy(fields[key])
    ensures GetOwn(fields, key) == fields[key]
    ensures !Truthy(GetOwn(fields, key))
  {
  }

  /**
   * A name only inherited from `Object.prototype` (`__proto__`, `constructor`, `valueOf`, ...) gives
   * undefined, although plain property access would find the inherited member.
   */
  lemma InheritedKeysAreNotOwn(fields: map<string, Value>, key: string)
    requires key in ObjectPrototypeKeys && key !in fields
    ensures GetOwn(fields, key) == Undefined
    ensures Lookup(fields, key) == Inherited(key)
  {
  }

  /** An own key that shadows a prototype name returns the own value. */
  lemma OwnKeyShadowsPrototype(fields: map<string, Value>, key: string)
    requires key in ObjectPrototypeKeys && key in fields
    ensures GetOwn(fields, key) == fields[key] == Lookup(fields, key)
  {
  }
}
