/** The wrapper's static configuration: the API version and the base URL every request starts with. */
module Config {

  /** The version of The Blue Alliance API the wrapper targets. */
  const ApiVersion: string := "v2"

  /** Every request URL begins with this prefix. */
  const BaseUrl: string := "http://thebluealliance.com/api/" + ApiVersion

  /** The single static header sent with every request (used only by the HTTP client, which is not modelled). */
  const Headers: map<string, string> := map["X-TBA-App-Id" := "dacotah_harvey:api_wrapper:1"]
}
