/**
 * The engine's persistent key-value store: integer and float entries under
 * string keys, read with a default and overwritten one key at a time.
 * Flushing to disk is not modelled.
 */
module PlayerPrefs {

  class Prefs {
    var ints: map<string, int>
    var floats: map<string, real>

    constructor ()
      ensures ints == map[] && floats == map[]
    {
      ints := map[];
      floats := map[];
    }

    /** The stored float under a key, or the default when the key was never set. */
    function GetFloat(key: string, defaultValue: real): (v: real)
      reads this
      ensures key in floats ==> v == floats[key]
      ensures key !in floats ==> v == defaultValue
    {
      if key in floats then floats[key] else defaultValue
    }

    /** The stored value of a key, or the default when the key was never set. */
    function GetInt(key: string, defaultValue: int): (v: int)
      reads this
      ensures key in ints ==> v == ints[key]
      ensures key !in ints ==> v == defaultValue
    {
      if key in ints then ints[key] else defaultValue
    }

    /** Overwrites one key; every other key keeps its value. */
    method SetInt(key: string, value: int)
      modifies this
      ensures ints == old(ints)[key := value] && floats == old(floats)
      ensures GetInt(key, 0) == value
      ensures forall k, d :: k != key ==> GetInt(k, d) == old(GetInt(k, d))
    {
      ints := ints[key := value];
    }
  }
}
