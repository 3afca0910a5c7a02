/** The desktop front end's settings service: the field mappings between the
    front end's Settings (a plain string key, empty meaning "none") and the back
    end's JSON object (a nullable key), for `get`, `save` and `testApiConnection`.
    The `invoke` transport itself is not modelled. */
module SettingsService {
  import opened Wrappers
  import opened SettingsModel
  import SettingsRepo
  import TodoModel

  /** The front end's `Settings` type. */
  datatype UiSettings = UiSettings(
    apiKey: string,
    apiBaseUrl: string,
    model: string,
    temperature: real,
    maxTokens: U32,
    systemPrompt: string,
    functionCallingMode: Option<string>,
    enableTextFallback: Option<bool>)

  /** `get`: a null or absent key becomes "", and the two function-calling options
      are filled with "auto" and true only when they are absent. */
  function FromBackend(raw: SettingsObject): (ui: UiSettings)
    ensures raw.apiKey.None? ==> ui.apiKey == ""
    ensures raw.apiKey.Some? ==> ui.apiKey == raw.apiKey.value
    ensures ui.functionCallingMode == Some(raw.functionCallingMode.GetOr("auto"))
    ensures ui.enableTextFallback == Some(raw.enableTextFallback.GetOr(true))
    ensures ui.apiBaseUrl == raw.apiBaseUrl && ui.model == raw.model
    ensures ui.temperature == raw.temperature && ui.maxTokens == raw.maxTokens
    ensures ui.systemPrompt == raw.systemPrompt
  {
    UiSettings(raw.apiKey.GetOr(""), raw.apiBaseUrl, raw.model, raw.temperature,
               raw.maxTokens, raw.systemPrompt,
               Some(raw.functionCallingMode.GetOr("auto")),
               Some(raw.enableTextFallback.GetOr(true)))
  }

  /** `settings.apiKey || null`: the empty string is falsy and becomes null. */
  function KeyOrNull(key: string): (r: Option<string>)
    ensures r.None? <==> key == ""
    ensures r.Some? ==> r.value == key
  {
    if key == "" then None else Some(key)
  }

  /** `save`'s payload. */
  function ToBackend(ui: UiSettings): (o: SettingsObject)
    ensures o.apiKey.None? <==> ui.apiKey == ""
    ensures o.functionCallingMode.Some? && o.enableTextFallback.Some?
    ensures ui.functionCallingMode.Some? ==> o.functionCallingMode == ui.functionCallingMode
    ensures ui.enableTextFallback.Some? ==> o.enableTextFallback == ui.enableTextFallback
  {
    SettingsObject(KeyOrNull(ui.apiKey), ui.apiBaseUrl, ui.model, ui.temperature,
                   ui.maxTokens, ui.systemPrompt,
                   Some(ui.functionCallingMode.GetOr("auto")),
                   Some(ui.enableTextFallback.GetOr(true)))
  }

  /** `testApiConnection`'s payload leaves out the two function-calling options. */
  function TestConnectionPayload(ui: UiSettings): (o: SettingsObject)
    ensures o.functionCallingMode.None? && o.enableTextFallback.None?
    ensures o == ToBackend(ui).(functionCallingMode := None, enableTextFallback := None)
  {
    SettingsObject(KeyOrNull(ui.apiKey), ui.apiBaseUrl, ui.model, ui.temperature,
                   ui.maxTokens, ui.systemPrompt, None, None)
  }

  /** Reading back `save`'s own payload gives the settings that were saved, with
      the two options filled in where they were absent. */
  lemma SaveThenGetPayload(ui: UiSettings)
    ensures FromBackend(ToBackend(ui)).apiKey == ui.apiKey
    ensures FromBackend(ToBackend(ui))
            == ui.(functionCallingMode := Some(ui.functionCallingMode.GetOr("auto")),
                   enableTextFallback := Some(ui.enableTextFallback.GetOr(true)))
  {
  }

  /** In the other direction the mapping is the identity for any object the back
      end can produce: a present key is never empty and both options are present. */
  lemma GetThenSavePayload(raw: SettingsObject)
    requires raw.apiKey != Some("")
    requires raw.functionCallingMode.Some? && raw.enableTextFallback.Some?
    ensures ToBackend(FromBackend(raw)) == raw
  {
  }

  /** The whole path: the front end saves, the back end deserializes and stores the
      settings, then reads them back and the front end maps them again. Key, URL,
      model, temperature, token limit and prompt survive; the two function-calling
      options always come back as "auto" and true. */
  lemma SaveThenGetThroughStore(ui: UiSettings, table: SettingsRepo.Table, now: TodoModel.Timestamp,
                                formatFloat: real -> string, parseFloat: string -> Option<real>)
    requires parseFloat(formatFloat(ui.temperature)) == Some(ui.temperature)
    ensures var stored := SettingsRepo.Written(table, FromObject(ToBackend(ui)), now, formatFloat);
            FromBackend(ToObject(SettingsRepo.Read(stored, parseFloat)))
            == ui.(functionCallingMode := Some("auto"), enableTextFallback := Some(true))
  {
    var s := FromObject(ToBackend(ui));
    SettingsRepo.SaveThenGet(table, s, now, formatFloat, parseFloat);
  }
}
