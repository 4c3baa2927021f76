/** The data shapes shared by the UI, the orchestrator and the back-office
    adapters. */
module Types {

  import opened Base
  import opened JsonValues

  datatype Role = User | Model

  /** Latitude and longitude, passed through untouched. */
  datatype MapLocation = MapLocation(latitude: real, longitude: real)

  datatype ReviewSnippet = ReviewSnippet(content: string)

  datatype PlaceAnswerSources = PlaceAnswerSources(reviewSnippets: Option<seq<ReviewSnippet>>)

  datatype MapsReference =
    MapsReference(uri: string, title: string, placeId: string, placeAnswerSources: Option<PlaceAnswerSources>)

  datatype WebReference = WebReference(uri: string, title: string)

  /** A grounding reference: a place, a web page, or (as the shape allows)
      both or neither. */
  datatype GroundingChunk = GroundingChunk(maps: Option<MapsReference>, web: Option<WebReference>)

  /** A PDF picked by the user: its file name, MIME type and base64 content
      without the data-URL prefix. */
  datatype Attachment = Attachment(name: string, mimeType: string, base64: string)

  /** The arguments of a tool call. Every parameter the catalogue declares
      is a string. */
  type ToolArgs = map<string, string>

  /** One entry of the tool-call log shown under a model message. */
  datatype ToolCall = ToolCall(name: string, args: ToolArgs)

  /** One turn of the rendered transcript; `timestamp` is a clock reading. */
  datatype Message = Message(
    id: string,
    role: Role,
    content: string,
    timestamp: int,
    groundingChunks: Option<seq<GroundingChunk>>,
    attachment: Option<Attachment>,
    toolCalls: Option<seq<ToolCall>>)

  /** A JSON:API resource object: `type`, an optional `id`, `attributes`. */
  datatype JsonApiResource = JsonApiResource(id: Option<string>, resourceType: string, attributes: map<string, Json>)
}
