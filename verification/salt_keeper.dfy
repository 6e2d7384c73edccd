/**
 * `SaltKeeper`: the per-installation salt kept in the encrypted preferences file
 * `secure_prefs`. The first call stores a fresh random UUID; every later call returns it.
 */
module SaltKeeper {
  import opened Wrappers

  const SaltKey := "install_salt"

  /** What `getSalt` did: the preference strings after the call, and the salt returned. */
  datatype Salted = Salted(prefs: map<string, string>, salt: string)

  /**
   * `getSalt`. `drawn` stands for `UUID.randomUUID().toString()`, drawn only when no salt
   * is stored yet.
   */
  function GetSalt(prefs: map<string, string>, drawn: string): (r: Salted)
    ensures SaltKey in r.prefs && r.prefs[SaltKey] == r.salt
    ensures SaltKey in prefs ==> r.salt == prefs[SaltKey] && r.prefs == prefs
    ensures SaltKey !in prefs ==> r.salt == drawn
    ensures forall k | k in prefs && k != SaltKey :: k in r.prefs && r.prefs[k] == prefs[k]
    ensures r.prefs.Keys == prefs.Keys + {SaltKey}
  {
    if SaltKey in prefs then Salted(prefs, prefs[SaltKey])
    else Salted(prefs[SaltKey := drawn], drawn)
  }

  /** The salt never changes once drawn: a second call returns the first call's salt and stores nothing new. */
  lemma SaltIsStable(prefs: map<string, string>, draw1: string, draw2: string)
    ensures var first := GetSalt(prefs, draw1);
      GetSalt(first.prefs, draw2) == first
  {
  }

  /** Whatever sequence of calls is made, every one returns the salt the first call returned. */
  lemma {:induction false} EveryCallAgrees(prefs: map<string, string>, draws: seq<string>)
    requires |draws| > 0
    ensures var first := GetSalt(prefs, draws[0]);
      Calls(prefs, draws) == (first.prefs, seq(|draws|, _ => first.salt))
  {
    var first := GetSalt(prefs, draws[0]);
    if |draws| == 1 {
      assert draws[..0] == [];
      assert [] + [first.salt] == seq(1, _ => first.salt);
    } else {
      var init := draws[..|draws| - 1];
      EveryCallAgrees(prefs, init);
      assert init[0] == draws[0];
      SaltIsStable(prefs, draws[0], draws[|draws| - 1]);
      assert seq(|init|, _ => first.salt) + [first.salt] == seq(|draws|, _ => first.salt);
    }
  }

  /** `getSalt` called once per entry of `draws`: the final store and the salts returned, in order. */
  function Calls(prefs: map<string, string>, draws: seq<string>): (r: (map<string, string>, seq<string>))
    ensures |r.1| == |draws|
  {
    if |draws| == 0 then (prefs, [])
    else
      var before := Calls(prefs, draws[..|draws| - 1]);
      var call := GetSalt(before.0, draws[|draws| - 1]);
      (call.prefs, before.1 + [call.salt])
  }
}
