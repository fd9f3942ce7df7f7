/**
 * The credential resolver of api/agents.py (`APIConfig`, api/agents.py:29-64). Unlike the
 * main.py resolver it only asks that the key be set and non-empty (a whitespace-only key is
 * accepted), and it catches every exception, including the `KeyError` of an unknown level,
 * answering `False`.
 */
module AgentsCredentials {
  import opened Wrappers
  import opened Text
  import opened Config

  /** `if not api_key`: `None` and the empty string are refused. */
  predicate Present(key: Option<string>) {
    key.Some? && key.value != ""
  }

  /** `configure_api(level, use_backup)` (api/agents.py:51-64). */
  function ConfigureOutcome(keys: KeyTable, refused: set<string>, level: string, useBackup: bool): bool {
    match GetApiKey(keys, level, useBackup)
    case Err(_) => false
    case Ok(key) => Present(key) && key.value !in refused
  }

  /** A caller's `if not configure_api(level): if not configure_api(level, use_backup=True)`:
      the key left active, or `None` when both slots failed. */
  function Resolve(keys: KeyTable, refused: set<string>, level: string): Option<string> {
    if ConfigureOutcome(keys, refused, level, false) then GetApiKey(keys, level, false).value
    else if ConfigureOutcome(keys, refused, level, true) then GetApiKey(keys, level, true).value
    else None
  }

  /** `configure_api` succeeds exactly when the level is known, its slot holds a non-empty
      key, and `genai.configure` accepts it; it never raises. */
  lemma ConfigureOutcomeIff(keys: KeyTable, refused: set<string>, level: string, useBackup: bool)
    ensures ConfigureOutcome(keys, refused, level, useBackup) <==>
      level in {"base", "medio", "avancado"}
      && GetApiKey(keys, level, useBackup).value.Some?
      && |GetApiKey(keys, level, useBackup).value.value| > 0
      && GetApiKey(keys, level, useBackup).value.value !in refused
  {
  }

  /** A key made of whitespace only is activated by this variant. */
  lemma BlankKeyAccepted(keys: KeyTable, refused: set<string>, level: string, useBackup: bool)
    requires GetApiKey(keys, level, useBackup).Ok?
    requires var k := GetApiKey(keys, level, useBackup).value;
      k.Some? && |k.value| > 0 && k.value !in refused && forall i :: 0 <= i < |k.value| ==> IsSpace(k.value[i])
    ensures ConfigureOutcome(keys, refused, level, useBackup)
    ensures Strip(GetApiKey(keys, level, useBackup).value.value) == ""
  {
    var k := GetApiKey(keys, level, useBackup).value.value;
    TrimStartSpec(k);
  }

  /** The primary key wins whenever it can be activated, the backup is tried only after it,
      and an unknown level leaves no key active instead of raising. */
  lemma ResolvePrimaryThenBackup(keys: KeyTable, refused: set<string>, level: string)
    ensures level !in {"base", "medio", "avancado"} ==> Resolve(keys, refused, level) == None
    ensures level in {"base", "medio", "avancado"} ==>
      var p := GetApiKey(keys, level, false).value;
      var b := GetApiKey(keys, level, true).value;
      && (Present(p) && p.value !in refused ==> Resolve(keys, refused, level) == p)
      && (!(Present(p) && p.value !in refused) && Present(b) && b.value !in refused ==>
            Resolve(keys, refused, level) == b)
      && (Resolve(keys, refused, level) == None <==>
            !(Present(p) && p.value !in refused) && !(Present(b) && b.value !in refused))
  {
  }

  class ApiConfig {
    const keys: KeyTable
    /** The keys on which `genai.configure` raises. */
    const refused: set<string>
    /** The key `genai.configure` last activated, process-wide. */
    ghost var active: Option<string>

    constructor (keys: KeyTable, refused: set<string>)
      ensures this.keys == keys && this.refused == refused && active == None
    {
      this.keys := keys;
      this.refused := refused;
      active := None;
    }

    method ConfigureApi(level: string, useBackup: bool) returns (ok: bool)
      modifies this
      ensures ok == ConfigureOutcome(keys, refused, level, useBackup)
      ensures active == (if ok then GetApiKey(keys, level, useBackup).value else old(active))
    {
      var apiKey := GetApiKey(keys, level, useBackup);
      if apiKey.Err? {
        // The `KeyError` is caught by the handler around the lookup.
        return false;
      }
      var key := apiKey.value;
      if key.None? || key.value == "" {
        return false;
      }
      if key.value in refused {
        return false;
      }
      active := key;
      return true;
    }

    /** The primary-then-backup pattern every caller writes out. */
    method ConfigureWithBackup(level: string) returns (key: Option<string>)
      modifies this
      ensures key == Resolve(keys, refused, level)
      ensures active == (if key.Some? then key else old(active))
    {
      var ok := ConfigureApi(level, false);
      if ok {
        return GetApiKey(keys, level, false).value;
      }
      ok := ConfigureApi(level, true);
      if ok {
        return GetApiKey(keys, level, true).value;
      }
      return None;
    }
  }
}
