/** The operator session (src/contexts/OperatorContext.tsx): a login
    against a fixed key list, remembered in the 'soltok_operator' entry. */
module OperatorContext {
  import opened Wrappers

  const VALID_OPERATOR_KEYS: seq<string> := ["operator-demo-2024", "soltok-admin", "bridge-operator"]

  predicate IsValidKey(key: string) {
    key in VALID_OPERATOR_KEYS
  }

  class OperatorSession {
    var isOperator: bool
    var operatorKey: Option<string>
    /** The persisted 'soltok_operator' entry, which may hold anything. */
    var persisted: Option<string>

    /** The session is signed in exactly when it holds a key, and that key
        is a valid one. */
    predicate Valid()
      reads this
    {
      (isOperator <==> operatorKey.Some?) && (operatorKey.Some? ==> IsValidKey(operatorKey.value))
    }

    /** The session starts signed in only when the persisted key is valid. */
    constructor (saved: Option<string>)
      ensures Valid() && persisted == saved
      ensures isOperator <==> saved.Some? && IsValidKey(saved.value)
      ensures isOperator ==> operatorKey == saved
    {
      var ok := saved.Some? && saved.value != "" && IsValidKey(saved.value);
      isOperator := ok;
      operatorKey := if ok then saved else None;
      persisted := saved;
    }

    method Login(key: string) returns (ok: bool)
      requires Valid()
      modifies this
      ensures Valid()
      ensures ok <==> IsValidKey(key)
      ensures ok ==> isOperator && operatorKey == Some(key) && persisted == Some(key)
      ensures !ok ==> isOperator == old(isOperator) && operatorKey == old(operatorKey)
                      && persisted == old(persisted)
    {
      if IsValidKey(key) {
        isOperator := true;
        operatorKey := Some(key);
        persisted := Some(key);
        return true;
      }
      return false;
    }

    method Logout()
      requires Valid()
      modifies this
      ensures Valid()
      ensures !isOperator && operatorKey.None? && persisted.None?
    {
      isOperator := false;
      operatorKey := None;
      persisted := None;
    }
  }

  /** No valid key is empty, so the truthiness test of the initial state
      adds nothing to the membership test. */
  lemma ValidKeysAreNonEmpty(key: string)
    requires IsValidKey(key)
    ensures key != ""
  {
  }
}
