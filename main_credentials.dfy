/**
 * The credential resolver of main.py (`APIConfig`, main.py:28-60). A slot is usable when its
 * key is set and is not blank after stripping; activating it calls `genai.configure`, which
 * may raise. The process-wide effect of `genai.configure` is the ghost field `active`.
 */
module MainCredentials {
  import opened Wrappers
  import opened Text
  import opened Config

  /** `api_key and api_key.strip()`. */
  predicate Usable(key: Option<string>) {
    key.Some? && Strip(key.value) != ""
  }

  /** `configure_api(level, use_backup)`: `Ok(true)` when the slot's key was activated,
      `Ok(false)` when it is missing, blank or refused by `genai.configure`, and the
      `KeyError` of an unknown level (raised before the `try`). */
  function ConfigureOutcome(keys: KeyTable, refused: set<string>, level: string, useBackup: bool): (r: Result<bool>)
    ensures r == Ok(true) <==>
      GetApiKey(keys, level, useBackup).Ok? && Usable(GetApiKey(keys, level, useBackup).value)
      && GetApiKey(keys, level, useBackup).value.value !in refused
    ensures r.Err? <==> level !in {"base", "medio", "avancado"}
  {
    match GetApiKey(keys, level, useBackup)
    case Err(m) => Err(m)
    case Ok(key) => Ok(Usable(key) && key.value !in refused)
  }

  /** A caller's `if not configure_api(level): if not configure_api(level, use_backup=True)`:
      the key left active (`None` when both slots failed), or the raised `KeyError`. */
  function Resolve(keys: KeyTable, refused: set<string>, level: string): (r: Result<Option<string>>)
    ensures r.Err? <==> level !in {"base", "medio", "avancado"}
  {
    match ConfigureOutcome(keys, refused, level, false)
    case Err(m) => Err(m)
    case Ok(true) => Ok(GetApiKey(keys, level, false).value)
    case Ok(false) =>
      match ConfigureOutcome(keys, refused, level, true)
      case Err(m) => Err(m)
      case Ok(true) => Ok(GetApiKey(keys, level, true).value)
      case Ok(false) => Ok(None)
  }

  /** The primary key wins whenever it can be activated; the backup is tried only after the
      primary failed; and no key is left active exactly when both slots failed. */
  lemma ResolvePrimaryThenBackup(keys: KeyTable, refused: set<string>, level: string)
    requires level in {"base", "medio", "avancado"}
    ensures var p := GetApiKey(keys, level, false).value;
            var b := GetApiKey(keys, level, true).value;
            && (Usable(p) && p.value !in refused ==> Resolve(keys, refused, level) == Ok(p))
            && ((!(Usable(p) && p.value !in refused) && Usable(b) && b.value !in refused) ==>
                  Resolve(keys, refused, level) == Ok(b))
            && (Resolve(keys, refused, level) == Ok(None) <==>
                  (!(Usable(p) && p.value !in refused) && !(Usable(b) && b.value !in refused)))
  {
  }

  /** A whitespace-only key is never activated by this variant. */
  lemma BlankKeyRejected(keys: KeyTable, refused: set<string>, level: string, useBackup: bool)
    requires GetApiKey(keys, level, useBackup).Ok?
    requires var k := GetApiKey(keys, level, useBackup).value; k.Some? && forall i :: 0 <= i < |k.value| ==> IsSpace(k.value[i])
    ensures ConfigureOutcome(keys, refused, level, useBackup) == Ok(false)
  {
    var k := GetApiKey(keys, level, useBackup).value.value;
    TrimStartSpec(k);
    TrimEndSpec(TrimStart(k));
  }

  class ApiConfig {
    const keys: KeyTable
    /** The keys on which `genai.configure` raises. */
    const refused: set<string>
    /** The key `genai.configure` last activated, process-wide. */
    ghost var active: Option<string>

    constructor (keys: KeyTable, refused: set<string>)
      ensures this.keys == keys && this.refused == refused && active == None
    {
      this.keys := keys;
      this.refused := refused;
      active := None;
    }

    method ConfigureApi(level: string, useBackup: bool) returns (r: Result<bool>)
      modifies this
      ensures r == ConfigureOutcome(keys, refused, level, useBackup)
      ensures active == (if r == Ok(true) then GetApiKey(keys, level, useBackup).value else old(active))
    {
      var apiKey := GetApiKey(keys, level, useBackup);
      if apiKey.Err? {
        return Err(apiKey.msg);
      }
      var key := apiKey.value;
      if key.Some? && Strip(key.value) != "" {
        if key.value in refused {
          return Ok(false);
        }
        active := key;
        return Ok(true);
      }
      return Ok(false);
    }

    /** The primary-then-backup pattern every caller writes out. */
    method ConfigureWithBackup(level: string) returns (r: Result<Option<string>>)
      modifies this
      ensures r == Resolve(keys, refused, level)
      ensures active == (if r.Ok? && r.value.Some? then r.value else old(active))
    {
      var ok := ConfigureApi(level, false);
      if ok == Ok(true) {
        return Ok(GetApiKey(keys, level, false).value);
      } else if ok.Err? {
        return Err(ok.msg);
      }
      // The level is known here, so the backup lookup cannot raise.
      ok := ConfigureApi(level, true);
      if ok == Ok(true) {
        return Ok(GetApiKey(keys, level, true).value);
      }
      return Ok(None);
    }
  }
}
