/**
 * Start-up configuration read from the environment by both server variants
 * (main.py:20-23, 109-111 and api/agents.py:21-24, 100-102): the two retry
 * policies, the model identifier of each tier and the two credential slots
 * of each tier.
 */
module Config {
  import opened Wrappers

  datatype Settings = Settings(
    maxRetries: int,       // MAX_RETRIES: default policy
    baseDelay: int,        // BASE_DELAY
    coderMaxRetries: int,  // CODER_MAX_RETRIES: website-generation policy
    coderBaseDelay: int,   // CODER_BASE_DELAY
    modelBase: string,
    modelMedio: string,
    modelAvancado: string)

  /** The values used when the environment sets none of them. */
  const DEFAULT_SETTINGS := Settings(3, 1, 3, 2, "gemini-2.5-flash-lite", "gemini-2.5-flash", "gemini-2.5-pro")

  /** The two credential slots of a tier; a slot is `None` when its variable is unset. */
  datatype Slots = Slots(primary: Option<string>, backup: Option<string>)

  /** `api_keys`: one pair of slots per tier. */
  datatype KeyTable = KeyTable(base: Slots, medio: Slots, avancado: Slots)

  /** `get_api_key`: the slot of `level`, or the `KeyError` that indexing an unknown level raises. */
  function GetApiKey(keys: KeyTable, level: string, useBackup: bool): (r: Result<Option<string>>)
    ensures r.Err? <==> level !in {"base", "medio", "avancado"}
    ensures r.Err? ==> r.msg == "'" + level + "'"
    ensures level == "base" ==> r == Ok(if useBackup then keys.base.backup else keys.base.primary)
    ensures level == "medio" ==> r == Ok(if useBackup then keys.medio.backup else keys.medio.primary)
    ensures level == "avancado" ==> r == Ok(if useBackup then keys.avancado.backup else keys.avancado.primary)
  {
    var slots :=
      if level == "base" then Some(keys.base)
      else if level == "medio" then Some(keys.medio)
      else if level == "avancado" then Some(keys.avancado)
      else None;
    match slots
    case None => Err("'" + level + "'")
    case Some(s) => Ok(if useBackup then s.backup else s.primary)
  }
}
