/** The management operation the dispatcher sends: the parts of a DMR `ModelNode` that
    the dispatch handler reads, and the foreign renderers it calls on them. */
module DmrOperation {
  import opened Optional

  /** An address: ordered (name, value) path segments, e.g. [("subsystem", "logging")]. */
  type Address = seq<(string, string)>

  /** One operation node. `op` is the operation name; `steps` are the sub-operations of a
      composite; `childType` and `name` are the optional `child-type` and `name` children;
      `params` holds every other parameter the operation carries (what `has` answers for). */
  datatype Op = Op(
    address: Address,
    op: string,
    steps: seq<Op>,
    params: map<string, string>,
    childType: Option<string>,
    name: Option<string>)

  /** Well-known operation names of the management protocol. */
  const COMPOSITE: string := "composite"
  const READ_RESOURCE_DESCRIPTION: string := "read-resource-description"

  /** The optional parameters of read-resource-description, in the order the URL lists them. */
  const RECURSIVE: string := "recursive"
  const PROXIES: string := "proxies"
  const OPERATIONS: string := "operations"
  const INHERITED: string := "inherited"
  const LOCALE: string := "locale"
  const DESCRIPTION_PARAMETERS: seq<string> := [RECURSIVE, PROXIES, OPERATIONS, INHERITED, LOCALE]

  /** Renderings and encodings done by code outside the dispatcher (ModelNode's text and
      base64 forms, the browser's URL encoder). The model never looks inside them. */
  datatype Codec = Codec(
    addressText: Address -> string,   // operation.get(ADDRESS).asString()
    nodeText: string -> string,       // the op-name node appended as an object (toString)
    undefinedText: string,            // asString() of an undefined node
    operationText: Op -> string,      // operation.toString()
    toBase64: Op -> string,           // operation.toBase64String()
    decodedText: string -> string,    // ModelNode.fromBase64(text).toString()
    urlEncode: string -> string)      // URL.encode(url)

  /** `asString()` of an optional string child: the string itself, or the undefined text. */
  function AsString(c: Codec, child: Option<string>): (s: string)
    ensures child.Some? ==> s == child.value
    ensures child.None? ==> s == c.undefinedText
  {
    child.GetOr(c.undefinedText)
  }
}
