/** The form's session state and its reset (app.py, lines 95-104). The
    session is a map from key names to values; resetting the form deletes a
    fixed list of keys one by one when present. */
module Session {

  /** The keys the reset deletes, in the order it visits them. */
  const ResetKeys: seq<string> :=
    [ "deposito_seleccionado", "zona_seleccionada", "localidad_seleccionada",
      "peso_seleccionado", "incluir_iva", "desea_facturar",
      "cantidad", "costo_final" ]

  class SessionState<V> {
    var entries: map<string, V>

    constructor (initial: map<string, V>)
      ensures entries == initial
    {
      entries := initial;
    }

    /** Deleting a key that is present; every other key keeps its value. */
    method Delete(key: string)
      requires key in entries
      modifies this
      ensures entries.Keys == old(entries).Keys - {key}
      ensures forall k :: k in entries ==> entries[k] == old(entries)[k]
    {
      entries := entries - {key};
    }

    /** The reset removes exactly the listed keys that are present and leaves
        every other entry as it was; in particular the declared merchandise
        value survives a reset. */
    method ResetForm()
      modifies this
      ensures entries.Keys == old(entries).Keys - set k | k in ResetKeys
      ensures forall k :: k in entries ==> entries[k] == old(entries)[k]
      ensures "valor_mercaderia" in old(entries) ==>
                "valor_mercaderia" in entries && entries["valor_mercaderia"] == old(entries)["valor_mercaderia"]
    {
      var i := 0;
      while i < |ResetKeys|
        invariant 0 <= i <= |ResetKeys|
        invariant entries.Keys == old(entries).Keys - set j | 0 <= j < i :: ResetKeys[j]
        invariant forall k :: k in entries ==> entries[k] == old(entries)[k]
      {
        var key := ResetKeys[i];
        if key in entries {
          Delete(key);
        }
        i := i + 1;
      }
      assert (set j | 0 <= j < |ResetKeys| :: ResetKeys[j]) == set k | k in ResetKeys;
    }
  }
}
