/** The payload classifier of src/utils/fileHandling.ts: decrypted text is either a parsed
    `{name, type, content}` record or plain text with default metadata. */
module FileHandling {
  import opened JsValue
  import Encryption

  const DefaultFileName := "decrypted.txt"
  const DefaultFileType := "text/plain"

  /** The plain-text record built for input that is not a file record. */
  function DefaultRecord(input: string): Json {
    JObject(map["content" := JString(input), "name" := JString(DefaultFileName), "type" := JString(DefaultFileType)])
  }

  /** The shape the classifier accepts: an object whose `type`, `name` and `content` are all truthy. */
  predicate IsFileRecord(v: Json) {
    && v.JObject?
    && (forall key :: key in FileRecordKeys ==> key in v.members && Truthy(Some(v.members[key])))
  }

  /** `fileData.type && fileData.name && fileData.content`, read left to right and stopping
      at the first falsy value; reading a property of `null` throws. */
  function FieldsTruthy(fileData: Json): (r: Completion<bool>)
    ensures r.Throw? <==> fileData.JNull?
    ensures r.Normal? ==> (r.value <==> IsFileRecord(fileData))
  {
    match GetProperty(fileData, "type")
    case Throw(e) => Throw(e)
    case Normal(t) =>
      if !Truthy(t) then Normal(false)
      else
        match GetProperty(fileData, "name")
        case Throw(e) => Throw(e)
        case Normal(n) =>
          if !Truthy(n) then Normal(false)
          else
            match GetProperty(fileData, "content")
            case Throw(e) => Throw(e)
            case Normal(c) => Normal(Truthy(c))
  }

  /** The `try` block of extractFileFromDecryptedData. */
  function ExtractBlock(parse: string -> Completion<Json>, decryptedData: string): Completion<Json> {
    if Encryption.IsValidJson(parse, decryptedData) then
      var fileData := parse(decryptedData).value;
      match FieldsTruthy(fileData)
      case Throw(e) => Throw(e)
      case Normal(ok) => Normal(if ok then fileData else DefaultRecord(decryptedData))
    else
      Normal(DefaultRecord(decryptedData))
  }

  /** extractFileFromDecryptedData. It never throws: a parsed file record is returned as the
      parsed value itself, with no copying or filtering, and everything else (input that does not
      parse, `null`, any other non-object, an object with a missing or falsy field) yields the
      default plain-text record whose content is the input verbatim. */
  function ExtractFileFromDecryptedData(parse: string -> Completion<Json>, decryptedData: string): (r: Json)
    ensures parse(decryptedData).Normal? && IsFileRecord(parse(decryptedData).value) ==> r == parse(decryptedData).value
    ensures !(parse(decryptedData).Normal? && IsFileRecord(parse(decryptedData).value)) ==> r == DefaultRecord(decryptedData)
    ensures parse(decryptedData).Throw? ==> r == DefaultRecord(decryptedData)
    ensures parse(decryptedData) == Normal(JNull) ==> r == DefaultRecord(decryptedData)
    ensures parse(decryptedData).Normal? && !parse(decryptedData).value.JObject? ==> r == DefaultRecord(decryptedData)
    ensures IsFileRecord(r) || r.members["content"] == JString(decryptedData)
  {
    match ExtractBlock(parse, decryptedData)
    case Normal(record) => record
    case Throw(_) => DefaultRecord(decryptedData)
  }

  /** The record the classifier returns always has a truthy `name` and `type`. */
  lemma ExtractedHasNameAndType(parse: string -> Completion<Json>, decryptedData: string)
    ensures var r := ExtractFileFromDecryptedData(parse, decryptedData);
      r.JObject? && "name" in r.members && "type" in r.members
      && Truthy(Some(r.members["name"])) && Truthy(Some(r.members["type"]))
  {
  }

  /** An object with a falsy field, such as an empty string, `0` or `false`, is plain text. */
  lemma FalsyFieldIsPlainText(parse: string -> Completion<Json>, decryptedData: string, key: string)
    requires parse(decryptedData).Normal? && parse(decryptedData).value.JObject?
    requires key in FileRecordKeys
    requires key in parse(decryptedData).value.members ==> !Truthy(Some(parse(decryptedData).value.members[key]))
    ensures ExtractFileFromDecryptedData(parse, decryptedData) == DefaultRecord(decryptedData)
  {
  }
}
