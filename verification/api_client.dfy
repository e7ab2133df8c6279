/**
 The text-generation service, seen only through its interface: a request goes
 out, a string comes back. The HTTP exchange itself is not modelled; the
 service is an arbitrary total function from requests to replies, so every
 reply a real service could give (the empty string on failure included) is
 covered by some `Backend`.
 */
module ApiClient {

  const DefaultBaseUrl: string := "https://api.mistral.ai"
  const GeneratePath: string := "/v1/generate"
  const DefaultModel: string := "codestral-22b"
  const DefaultMaxTokens: int := 256

  /** What a client is configured with: the credential and the service's address. */
  datatype Client = Client(apiKey: string, baseUrl: string)

  /** One request as it leaves the client: where it goes, under which key, and its payload. */
  datatype Request = Request(endpoint: string, apiKey: string, model: string, prompt: string, maxTokens: int)

  /** The service: whatever it answers to each request. A failed call answers "". */
  type Backend = Request -> string

  /** One call and its answer. */
  datatype Exchange = Exchange(request: Request, reply: string)

  /** A client built with only a key talks to the default address. */
  function NewClient(apiKey: string): (c: Client)
    ensures c.apiKey == apiKey && c.baseUrl == DefaultBaseUrl
  {
    Client(apiKey, DefaultBaseUrl)
  }

  /**
   `callModel`: one request to the generate endpoint under the client's key,
   with the default model and the given token budget; the reply is the
   service's answer, passed through untouched.
   */
  function CallModel(client: Client, backend: Backend, prompt: string, maxTokens: int): (e: Exchange)
    ensures e.request.endpoint == client.baseUrl + GeneratePath
    ensures e.request.apiKey == client.apiKey
    ensures e.request.model == DefaultModel
    ensures e.request.prompt == prompt && e.request.maxTokens == maxTokens
    ensures e.reply == backend(e.request)
  {
    var request := Request(client.baseUrl + GeneratePath, client.apiKey, DefaultModel, prompt, maxTokens);
    Exchange(request, backend(request))
  }
}
