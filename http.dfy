/** The requests the app hands to the URL loading system, as plain values. */
module Http {
  import opened Wrappers

  /** A `URLRequest`: method, URL, header fields and, for POST, the JSON object
      (string keys to string values) serialised into the body. */
  datatype HttpRequest = HttpRequest(
    httpMethod: string,
    url: string,
    headers: map<string, string>,
    jsonBody: Option<map<string, string>>)

  const ContentTypeJson: map<string, string> := map["Content-Type" := "application/json"]
}
