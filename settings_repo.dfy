/** The settings table: one row per key (the key is the primary key), read into a
    Settings record field by field and written back by a sequence of upserts.
    Only six keys are ever read or written; the two function-calling options are
    not among them. Float text conversion (`f32::to_string`, `str::parse::<f32>`)
    is foreign code and comes in as parameters. */
module SettingsRepo {
  import opened Wrappers
  import opened Text
  import opened SettingsModel
  import TodoModel

  datatype SettingRow = SettingRow(value: string, updatedAt: TodoModel.Timestamp)

  type Table = map<string, SettingRow>

  /** Rust `str::parse::<u32>`: an optional `+`, then at least one decimal digit,
      with a value below 2^32. */
  function ParseU32(t: string): (r: Option<U32>)
    ensures r.Some? ==> t != [] && (IsDigit(t[0]) || t[0] == '+')
  {
    var digits := if |t| > 0 && t[0] == '+' then t[1..] else t;
    if digits == [] || exists i :: 0 <= i < |digits| && !IsDigit(digits[i]) then None
    else if DigitsValue(digits) < 0x1_0000_0000 then Some(DigitsValue(digits))
    else None
  }

  /** `u32::to_string` followed by `parse::<u32>` gives the number back. */
  lemma ParseU32Decimal(n: U32)
    ensures ParseU32(Decimal(n)) == Some(n)
  {
    DecimalValue(n);
  }

  /** The text stored under `key`, if the table has a row for it. */
  function Stored(table: Table, key: string): Option<string> {
    if key in table then Some(table[key].value) else None
  }

  /** What `get` returns for a table: the defaults, overridden by each stored key
      that reads successfully. */
  function Read(table: Table, parseFloat: string -> Option<real>): (s: Settings)
    ensures s.apiKey != Some("")
    ensures s.functionCallingMode == DefaultSettings().functionCallingMode
    ensures s.enableTextFallback == DefaultSettings().enableTextFallback
  {
    var d := DefaultSettings();
    var apiKey := match Stored(table, "api_key")
      case Some(v) => if v != "" then Some(v) else d.apiKey
      case None => d.apiKey;
    var temperature := match Stored(table, "temperature")
      case Some(v) => parseFloat(v).GetOr(d.temperature)
      case None => d.temperature;
    var maxTokens := match Stored(table, "max_tokens")
      case Some(v) => ParseU32(v).GetOr(d.maxTokens)
      case None => d.maxTokens;
    d.(apiKey := apiKey,
       apiBaseUrl := Stored(table, "api_base_url").GetOr(d.apiBaseUrl),
       model := Stored(table, "model").GetOr(d.model),
       temperature := temperature,
       maxTokens := maxTokens,
       systemPrompt := Stored(table, "system_prompt").GetOr(d.systemPrompt))
  }

  /** The table after `save`: six upserts, all stamped with the same instant. */
  function Written(table: Table, s: Settings, now: TodoModel.Timestamp, formatFloat: real -> string): (w: Table)
    ensures forall k :: k in {"api_key", "api_base_url", "model", "temperature", "max_tokens", "system_prompt"} ==>
                          k in w && w[k].updatedAt == now
    ensures w["api_key"].value == s.apiKey.GetOr("") && w["max_tokens"].value == Decimal(s.maxTokens)
  {
    table["api_key" := SettingRow(s.apiKey.GetOr(""), now)]
         ["api_base_url" := SettingRow(s.apiBaseUrl, now)]
         ["model" := SettingRow(s.model, now)]
         ["temperature" := SettingRow(formatFloat(s.temperature), now)]
         ["max_tokens" := SettingRow(Decimal(s.maxTokens), now)]
         ["system_prompt" := SettingRow(s.systemPrompt, now)]
  }

  /** An empty table reads as the default settings. */
  lemma ReadEmpty(parseFloat: string -> Option<real>)
    ensures Read(map[], parseFloat) == DefaultSettings()
  {
  }

  /** A stored empty key reads as no key; any other stored key reads as itself. */
  lemma ReadApiKey(table: Table, parseFloat: string -> Option<real>)
    requires "api_key" in table
    ensures table["api_key"].value == "" ==> Read(table, parseFloat).apiKey == None
    ensures table["api_key"].value != "" ==> Read(table, parseFloat).apiKey == Some(table["api_key"].value)
  {
  }

  /** A stored max_tokens text that does not parse as u32 leaves the default 2048. */
  lemma ReadUnparsableMaxTokens(table: Table, parseFloat: string -> Option<real>)
    requires "max_tokens" in table && ParseU32(table["max_tokens"].value).None?
    ensures Read(table, parseFloat).maxTokens == 2048
  {
  }

  /** What `get` gives after `save(s)`: the saved settings, except that an empty key
      comes back absent and the two function-calling options come back as their
      defaults, whatever was saved, because neither is stored. */
  function AfterSaveAndGet(s: Settings): Settings {
    s.(apiKey := if s.apiKey == Some("") then None else s.apiKey,
       functionCallingMode := DefaultFunctionCallingMode,
       enableTextFallback := DefaultTextFallback)
  }

  lemma SaveThenGet(table: Table, s: Settings, now: TodoModel.Timestamp,
                    formatFloat: real -> string, parseFloat: string -> Option<real>)
    requires parseFloat(formatFloat(s.temperature)) == Some(s.temperature)
    ensures Read(Written(table, s, now, formatFloat), parseFloat) == AfterSaveAndGet(s)
  {
    ParseU32Decimal(s.maxTokens);
  }

  /** In particular the function-calling options never survive a save. */
  lemma SaveForgetsFunctionCallingOptions(table: Table, s: Settings, now: TodoModel.Timestamp,
                                          formatFloat: real -> string, parseFloat: string -> Option<real>)
    ensures Read(Written(table, s, now, formatFloat), parseFloat).functionCallingMode == "auto"
    ensures Read(Written(table, s, now, formatFloat), parseFloat).enableTextFallback
  {
  }

  /** Saving writes exactly the six keys; every other row is left as it was. */
  lemma WrittenKeys(table: Table, s: Settings, now: TodoModel.Timestamp, formatFloat: real -> string)
    ensures Written(table, s, now, formatFloat).Keys
            == table.Keys + {"api_key", "api_base_url", "model", "temperature", "max_tokens", "system_prompt"}
    ensures forall k :: k in table && k !in {"api_key", "api_base_url", "model", "temperature", "max_tokens", "system_prompt"}
                        ==> Written(table, s, now, formatFloat)[k] == table[k]
  {
  }

  function Upserted(table: Table, key: string, value: string, now: TodoModel.Timestamp): Table {
    table[key := SettingRow(value, now)]
  }

  /** After an upsert the key has exactly one row, holding the latest value, and no
      other key's row changes; upserting a key twice keeps only the second value. */
  lemma UpsertKeepsOneRowPerKey(table: Table, key: string, v1: string, t1: TodoModel.Timestamp,
                                v2: string, t2: TodoModel.Timestamp)
    ensures Upserted(table, key, v1, t1)[key] == SettingRow(v1, t1)
    ensures Upserted(table, key, v1, t1).Keys == table.Keys + {key}
    ensures forall k :: k in table && k != key ==> Upserted(table, key, v1, t1)[k] == table[k]
    ensures Upserted(Upserted(table, key, v1, t1), key, v2, t2) == Upserted(table, key, v2, t2)
  {
  }

  class SettingsRepository {
    var table: Table

    constructor ()
      ensures table == map[]
    {
      table := map[];
    }

    /** `get`: starts from the defaults and overrides one field per stored key. */
    method Get(parseFloat: string -> Option<real>) returns (s: Settings)
      ensures s == Read(table, parseFloat)
    {
      ghost var r := Read(table, parseFloat);
      s := DefaultSettings();
      if "api_key" in table {
        var value := table["api_key"].value;
        if value != "" {
          s := s.(apiKey := Some(value));
        }
      }
      assert s.apiKey == r.apiKey;
      if "api_base_url" in table {
        s := s.(apiBaseUrl := table["api_base_url"].value);
      }
      assert s.apiBaseUrl == r.apiBaseUrl;
      if "model" in table {
        s := s.(model := table["model"].value);
      }
      assert s.model == r.model;
      if "temperature" in table {
        var temp := parseFloat(table["temperature"].value);
        if temp.Some? {
          s := s.(temperature := temp.value);
        }
      }
      assert s.temperature == r.temperature;
      if "max_tokens" in table {
        var tokens := ParseU32(table["max_tokens"].value);
        if tokens.Some? {
          s := s.(maxTokens := tokens.value);
        }
      }
      assert s.maxTokens == r.maxTokens;
      if "system_prompt" in table {
        s := s.(systemPrompt := table["system_prompt"].value);
      }
    }

    /** `save`: one upsert per stored field, in the source's order. */
    method Save(s: Settings, now: TodoModel.Timestamp, formatFloat: real -> string)
      modifies this
      ensures table == Written(old(table), s, now, formatFloat)
    {
      UpsertSetting("api_key", s.apiKey.GetOr(""), now);
      UpsertSetting("api_base_url", s.apiBaseUrl, now);
      UpsertSetting("model", s.model, now);
      UpsertSetting("temperature", formatFloat(s.temperature), now);
      UpsertSetting("max_tokens", Decimal(s.maxTokens), now);
      UpsertSetting("system_prompt", s.systemPrompt, now);
    }

    /** `INSERT ... ON CONFLICT(key) DO UPDATE`: afterwards the key has exactly one
        row, holding the latest value (see UpsertKeepsOneRowPerKey). */
    method UpsertSetting(key: string, value: string, now: TodoModel.Timestamp)
      modifies this
      ensures table == Upserted(old(table), key, value, now)
    {
      table := table[key := SettingRow(value, now)];
    }
  }
}
