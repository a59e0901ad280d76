/**
 * The credential holder: the `{apiUrl, apiKey}` pair used for the selected
 * model, looked up in a static model-to-credentials table.
 */
module Credentials {

  /**
   * The model identifiers. `Gemini_2_0_Flash` and `DeepSeek_V3_2` are the ones
   * the client names; `Other` stands for any further member of the enum.
   */
  datatype Model = Gemini_2_0_Flash | DeepSeek_V3_2 | Other(name: string)

  /** The pair `getCredentials` hands out. */
  datatype ApiCredentials = ApiCredentials(apiUrl: string, apiKey: string)

  class CredentialsService {
    /** The environment's `modelKeys` table. */
    const modelKeys: map<Model, ApiCredentials>
    var apiUrl: string
    var apiKey: string

    /** Starts out with the `DeepSeek_V3_2` entry of the table. */
    constructor (modelKeys: map<Model, ApiCredentials>)
      requires DeepSeek_V3_2 in modelKeys
      ensures this.modelKeys == modelKeys
      ensures apiUrl == modelKeys[DeepSeek_V3_2].apiUrl
      ensures apiKey == modelKeys[DeepSeek_V3_2].apiKey
    {
      this.modelKeys := modelKeys;
      apiUrl := modelKeys[DeepSeek_V3_2].apiUrl;
      apiKey := modelKeys[DeepSeek_V3_2].apiKey;
    }

    /**
     * Overwrites both fields from the table entry of `model`. The new state
     * depends on `model` alone, so the last selection wins and repeating a
     * selection changes nothing. A model missing from the table would make
     * the client throw; callers never pass one.
     */
    method SetCredentials(model: Model)
      requires model in modelKeys
      modifies this
      ensures apiKey == modelKeys[model].apiKey
      ensures apiUrl == modelKeys[model].apiUrl
    {
      var config := modelKeys[model];
      apiKey := config.apiKey;
      apiUrl := config.apiUrl;
    }

    /** Returns the current pair as a new value; reading changes nothing. */
    method GetCredentials() returns (c: ApiCredentials)
      ensures c.apiUrl == apiUrl && c.apiKey == apiKey
    {
      c := ApiCredentials(apiUrl, apiKey);
    }
  }

  /**
   * Switching model and reading back gives the new pair, while a pair read
   * before the switch (as a request dispatched earlier holds it) keeps the
   * old value.
   */
  method SwitchModel(service: CredentialsService, first: Model, second: Model)
    returns (before: ApiCredentials, after: ApiCredentials)
    requires first in service.modelKeys && second in service.modelKeys
    modifies service
    ensures before == service.modelKeys[first]
    ensures after == service.modelKeys[second]
    ensures service.apiUrl == service.modelKeys[second].apiUrl
    ensures service.apiKey == service.modelKeys[second].apiKey
  {
    service.SetCredentials(first);
    before := service.GetCredentials();
    service.SetCredentials(second);
    after := service.GetCredentials();
  }
}
