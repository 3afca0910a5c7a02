/** The assistant's settings record, its defaults, and the camelCase JSON object it
    travels as between the desktop front end and the back end (serde, with field
    defaults for the two function-calling options). */
module SettingsModel {
  import opened Wrappers

  /** Rust `u32`. */
  type U32 = x: int | 0 <= x < 0x1_0000_0000

  const DefaultSystemPrompt: string :=
    "你是一个智能任务助手。你可以帮助用户管理他们的待办事项。\n\n"
    + "你有以下能力：\n"
    + "- 添加新任务 (add_todos)\n"
    + "- 完成任务 (complete_todo)\n"
    + "- 删除任务 (delete_todo)\n"
    + "- 查询任务 (query_todos)\n"
    + "- 获取统计信息 (get_statistics)\n\n"
    + "请根据用户的自然语言请求，调用适当的函数来帮助他们管理任务。回复时使用简洁友好的中文。\n\n"
    + "当用户请求创建任务时，请仔细理解他们的意图，将大目标拆解为具体可执行的小任务。"

  /** `"auto" | "tools" | "functions" | "disabled"`; any other text acts as "auto". */
  const DefaultFunctionCallingMode: string := "auto"
  const DefaultTextFallback: bool := true
  const DefaultApiBaseUrl: string := "https://api.openai.com/v1"
  const DefaultModel: string := "gpt-4o-mini"
  const DefaultTemperature: real := 0.7
  const DefaultMaxTokens: U32 := 2048

  datatype Settings = Settings(
    apiKey: Option<string>,
    apiBaseUrl: string,
    model: string,
    temperature: real,
    maxTokens: U32,
    systemPrompt: string,
    functionCallingMode: string,
    enableTextFallback: bool)

  /** `Settings::default()`. */
  function DefaultSettings(): (s: Settings)
    ensures s.apiKey == None
    ensures s.apiBaseUrl == DefaultApiBaseUrl && s.model == DefaultModel
    ensures s.temperature == DefaultTemperature && s.maxTokens == DefaultMaxTokens
    ensures s.systemPrompt == DefaultSystemPrompt
    ensures s.functionCallingMode == "auto" && s.enableTextFallback
  {
    Settings(None, DefaultApiBaseUrl, DefaultModel, DefaultTemperature, DefaultMaxTokens,
             DefaultSystemPrompt, DefaultFunctionCallingMode, DefaultTextFallback)
  }

  /** The JSON object form: `apiKey` may be null or absent (both `None`), and the
      two function-calling members may be absent. */
  datatype SettingsObject = SettingsObject(
    apiKey: Option<string>,
    apiBaseUrl: string,
    model: string,
    temperature: real,
    maxTokens: U32,
    systemPrompt: string,
    functionCallingMode: Option<string>,
    enableTextFallback: Option<bool>)

  /** Serialization writes every member. */
  function ToObject(s: Settings): (o: SettingsObject)
    ensures o.functionCallingMode.Some? && o.enableTextFallback.Some?
    ensures FromObject(o) == s
  {
    SettingsObject(s.apiKey, s.apiBaseUrl, s.model, s.temperature, s.maxTokens,
                   s.systemPrompt, Some(s.functionCallingMode), Some(s.enableTextFallback))
  }

  /** Deserialization; the `#[serde(default = ...)]` functions fill the two
      optional members, giving "auto" and true. */
  function FromObject(o: SettingsObject): Settings {
    Settings(o.apiKey, o.apiBaseUrl, o.model, o.temperature, o.maxTokens,
             o.systemPrompt,
             o.functionCallingMode.GetOr(DefaultFunctionCallingMode),
             o.enableTextFallback.GetOr(DefaultTextFallback))
  }

  /** An object without the two function-calling members reads with their defaults,
      and every other member is taken as sent. */
  lemma FromObjectDefaults(o: SettingsObject)
    requires o.functionCallingMode.None? && o.enableTextFallback.None?
    ensures FromObject(o).functionCallingMode == "auto"
    ensures FromObject(o).enableTextFallback == true
    ensures ToObject(FromObject(o)) == o.(functionCallingMode := Some("auto"), enableTextFallback := Some(true))
  {
  }
}
