/** The server-authoritative console variables: a float table and an int
    table keyed by name, replicated to clients. Writes from any connection
    are stored as they are; reads fall back to the caller's default. */
module ConVars {
  import opened Common

  /** The float variables the server sets when it starts. */
  const DefaultFloats: map<string, real> := map[
    "sv_accelerate" := 14.0,
    "sv_airaccelerate" := 80.0,
    "sv_friction" := 6.0,
    "sv_surf_friction" := 0.5,
    "sv_gravity" := 30.0,
    "sv_maxspeed" := 7.0,
    "sv_aircap" := 0.0]

  /** The int variables the server sets when it starts. */
  const DefaultInts: map<string, int> := map["sv_autobhop" := 1]

  /** The float table after the server-start writes, in their order. */
  function WithDefaultFloats(m: map<string, real>): (r: map<string, real>)
    ensures forall k :: k in DefaultFloats ==> k in r && r[k] == DefaultFloats[k]
    ensures forall k :: k !in DefaultFloats ==> (k in r <==> k in m)
    ensures forall k :: k !in DefaultFloats && k in m ==> r[k] == m[k]
  {
    m["sv_accelerate" := 14.0]["sv_airaccelerate" := 80.0]["sv_friction" := 6.0]
     ["sv_surf_friction" := 0.5]["sv_gravity" := 30.0]["sv_maxspeed" := 7.0]["sv_aircap" := 0.0]
  }

  /** Server start leaves every default readable with its documented value,
      whatever the table held before, and touches no other name. */
  lemma DefaultFloatsStored(m: map<string, real>)
    ensures WithDefaultFloats(m) == m + DefaultFloats
  {
    var w := WithDefaultFloats(m);
    forall k | k in DefaultFloats
      ensures k in w && w[k] == DefaultFloats[k]
    {
    }
  }

  class ConsoleVarManager {
    var floats: map<string, real>
    var ints: map<string, int>

    constructor ()
      ensures floats == map[] && ints == map[]
    {
      floats := map[];
      ints := map[];
    }

    /** Server start writes the eight defaults over whatever was there. */
    method OnStartServer()
      modifies this
      ensures floats == WithDefaultFloats(old(floats))
      ensures ints == old(ints) + DefaultInts
    {
      SetFloat("sv_accelerate", 14.0);
      SetFloat("sv_airaccelerate", 80.0);
      SetFloat("sv_friction", 6.0);
      SetFloat("sv_surf_friction", 0.5);
      SetFloat("sv_gravity", 30.0);
      SetInt("sv_autobhop", 1);
      SetFloat("sv_maxspeed", 7.0);
      SetFloat("sv_aircap", 0.0);
    }

    /** The request any connection may send: applied unconditionally. */
    method SetFloatServerRpc(k: string, v: real)
      modifies this`floats
      ensures floats == old(floats)[k := v]
    {
      SetFloat(k, v);
    }

    /** The request any connection may send: applied unconditionally. */
    method SetIntServerRpc(k: string, v: int)
      modifies this`ints
      ensures ints == old(ints)[k := v]
    {
      SetInt(k, v);
    }

    /** Store `v` under `k`, with no check on the name or the value; no other
        float entry and no int entry changes. */
    method SetFloat(k: string, v: real)
      modifies this`floats
      ensures floats == old(floats)[k := v]
      ensures GetFloat(k, 0.0) == v
    {
      floats := floats[k := v];
    }

    /** Store `v` under `k`, with no check on the name or the value; no other
        int entry and no float entry changes. */
    method SetInt(k: string, v: int)
      modifies this`ints
      ensures ints == old(ints)[k := v]
      ensures GetInt(k, 0) == v
    {
      ints := ints[k := v];
    }

    /** The stored value, or the caller's default for a name never set. */
    function GetFloat(k: string, def: real): (v: real)
      reads this
      ensures k in floats ==> v == floats[k]
      ensures k !in floats ==> v == def
    {
      Lookup(floats, k, def)
    }

    /** The stored value, or the caller's default for a name never set. */
    function GetInt(k: string, def: int): (v: int)
      reads this
      ensures k in ints ==> v == ints[k]
      ensures k !in ints ==> v == def
    {
      Lookup(ints, k, def)
    }
  }
}
