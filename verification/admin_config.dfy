/**
 * The settings lookup of the admin configuration page
 * (src/pages/admin/config/index.tsx): `getConfigValue` finds a setting by
 * name, and `onRewardFormSet` copies settings into the page's four forms.
 */
module AdminConfig {
  import opened Wrappers

  /** One server setting: its name and its value as text. */
  datatype ConfigInfo = ConfigInfo(name: string, value: string)

  /**
   * What a form field is set to. `Number(...)` and `JSON.parse(...)` are not
   * modelled; a field set through them records the text they were given.
   */
  datatype FieldValue = Text(text: string) | NumberOf(text: string) | JsonOf(text: string)

  const RegisterReward := "register_reward"
  const SigninReward := "signin_reward"
  const HistoryMessageCount := "history_message_count"
  const AiModels := "ai_models"
  const DrawUsePrice := "draw_use_price"

  /** `data.filter((c) => c.name === key)`: the settings named `key`, in list order. */
  function Matching(key: string, data: seq<ConfigInfo>): (r: seq<ConfigInfo>)
    ensures |r| <= |data|
    ensures forall c :: c in r <==> c in data && c.name == key
  {
    if data == [] then []
    else if data[0].name == key then [data[0]] + Matching(key, data[1..])
    else Matching(key, data[1..])
  }

  /**
   * `getConfigValue`: the first element of the filtered list, or `None`
   * (`undefined` in the source) when no setting has that name.
   */
  function GetConfigValue(key: string, data: seq<ConfigInfo>): (r: Option<ConfigInfo>)
    ensures r.Some? ==> r.value in data && r.value.name == key
    ensures r.None? <==> forall c :: c in data ==> c.name != key
  {
    var matches := Matching(key, data);
    if |matches| > 0 then Some(matches[0]) else None
  }

  /** The filter keeps list order: the first setting named `key` heads the filtered list. */
  lemma {:induction false} MatchingStartsWithFirst(key: string, data: seq<ConfigInfo>, i: nat)
    requires i < |data| && data[i].name == key
    requires forall j :: 0 <= j < i ==> data[j].name != key
    ensures |Matching(key, data)| > 0 && Matching(key, data)[0] == data[i]
    decreases i
  {
    if i > 0 {
      MatchingStartsWithFirst(key, data[1..], i - 1);
    }
  }

  /** `getConfigValue` returns the first setting named `key`: none before it has that name. */
  lemma {:induction false} GetConfigValueIsFirst(key: string, data: seq<ConfigInfo>, i: nat)
    requires i < |data| && data[i].name == key
    requires forall j :: 0 <= j < i ==> data[j].name != key
    ensures GetConfigValue(key, data) == Some(data[i])
  {
    MatchingStartsWithFirst(key, data, i);
  }

  /** `chatModels && chatModels.value`: the setting exists and its value is not empty. */
  predicate Truthy(entry: Option<ConfigInfo>)
  {
    entry.Some? && entry.value.value != ""
  }

  /** The four forms of the configuration page, each a map from field name to value. */
  class ConfigPage {
    var rewardForm: map<string, FieldValue>
    var historyMessageForm: map<string, FieldValue>
    var modelsForm: map<string, FieldValue>
    var drawUsePriceForm: map<string, FieldValue>

    constructor ()
      ensures rewardForm == map[] && historyMessageForm == map[]
      ensures modelsForm == map[] && drawUsePriceForm == map[]
    {
      rewardForm, historyMessageForm := map[], map[];
      modelsForm, drawUsePriceForm := map[], map[];
    }

    /**
     * `onRewardFormSet`: the reward and history settings are read without a
     * guard, so they must be present; `ai_models` and `draw_use_price` are
     * written only when present with a non-empty value. `setFieldsValue`
     * merges the given fields into the form and leaves the others alone.
     */
    method RewardFormSet(data: seq<ConfigInfo>)
      requires GetConfigValue(RegisterReward, data).Some?
      requires GetConfigValue(SigninReward, data).Some?
      requires GetConfigValue(HistoryMessageCount, data).Some?
      modifies this
      ensures rewardForm
           == old(rewardForm)[RegisterReward := Text(GetConfigValue(RegisterReward, data).value.value)]
                             [SigninReward := Text(GetConfigValue(SigninReward, data).value.value)]
      ensures historyMessageForm
           == old(historyMessageForm)[HistoryMessageCount := NumberOf(GetConfigValue(HistoryMessageCount, data).value.value)]
      ensures modelsForm
           == if Truthy(GetConfigValue(AiModels, data))
              then old(modelsForm)[AiModels := JsonOf(GetConfigValue(AiModels, data).value.value)]
              else old(modelsForm)
      ensures drawUsePriceForm
           == if Truthy(GetConfigValue(DrawUsePrice, data))
              then old(drawUsePriceForm)[DrawUsePrice := JsonOf(GetConfigValue(DrawUsePrice, data).value.value)]
              else old(drawUsePriceForm)
    {
      var registerRewardInfo := GetConfigValue(RegisterReward, data);
      var signinRewardInfo := GetConfigValue(SigninReward, data);
      var historyMessageCountInfo := GetConfigValue(HistoryMessageCount, data);
      var chatModels := GetConfigValue(AiModels, data);
      var drawUsePrice := GetConfigValue(DrawUsePrice, data);
      rewardForm := rewardForm[RegisterReward := Text(registerRewardInfo.value.value)]
                              [SigninReward := Text(signinRewardInfo.value.value)];
      historyMessageForm := historyMessageForm[HistoryMessageCount := NumberOf(historyMessageCountInfo.value.value)];
      if chatModels.Some? && chatModels.value.value != "" {
        modelsForm := modelsForm[AiModels := JsonOf(chatModels.value.value)];
      }
      if drawUsePrice.Some? && drawUsePrice.value.value != "" {
        drawUsePriceForm := drawUsePriceForm[DrawUsePrice := JsonOf(drawUsePrice.value.value)];
      }
    }
  }
}
