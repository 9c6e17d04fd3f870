/** Stream encoders (pydantic_client/clients/encoders.py): turning one
    server-sent-events chunk of an OpenAI-style chat stream into a message.
    JSON decoding is the parameter `parse`. */
module Encoders {
  import opened Wrappers
  import opened Text
  import opened Values

  /** `Message(content=...)`: pydantic requires `content` to be a string. */
  datatype Message = Message(content: string)

  /** `chunk.startswith("data: ") and "[DONE]" not in chunk`: the chunks the
      encoder goes on to decode. */
  predicate IsDataChunk(chunk: string) {
    StartsWith(chunk, "data: ") && !ContainsSub(chunk, "[DONE]")
  }

  /** The names bound at the top level of encoders.py. */
  const EncoderGlobals: set<string> := {"Optional", "BaseModel", "Message", "sse_openai_encoder"}

  /** Looking up a global name from inside a function of the module. */
  function LookupGlobal(name: string, globals: set<string>): (r: Result<()>)
    ensures r.Ok? <==> name in globals
    ensures r.Err? ==> r.error == NameError(name)
  {
    if name in globals then Ok(()) else Err(NameError(name))
  }

  /** `sse_openai_encoder(chunk)` as written: the body reaches `json.loads`
      for every data chunk, and the module never imports `json`. */
  function SseAsWritten(chunk: string, parse: string -> Result<Value>): (r: Result<Option<Message>>)
    ensures !IsDataChunk(chunk) ==> r == Ok(None)
  {
    if !IsDataChunk(chunk) then Ok(None)
    else
      var _ :- LookupGlobal("json", EncoderGlobals);
      SseDecode(chunk, parse)
  }

  /** As written, every chunk that gets past the guard raises `NameError`,
      so no message is ever produced. */
  lemma SseAsWrittenFails(chunk: string, parse: string -> Result<Value>)
    requires IsDataChunk(chunk)
    ensures SseAsWritten(chunk, parse) == Err(NameError("json"))
  {
    assert "json"[0] == 'j';
    assert "json" !in EncoderGlobals;
  }

  /** `sse_openai_encoder(chunk)` with `json` imported: the payload after
      `data: ` is decoded, and the first choice's `delta.content`, when
      present, becomes the message. Lookups the payload does not support
      raise as Python would. */
  function SseDecode(chunk: string, parse: string -> Result<Value>): (r: Result<Option<Message>>)
    ensures !IsDataChunk(chunk) ==> r == Ok(None)
    ensures IsDataChunk(chunk) && parse(chunk[6..]).Err? ==> r == Err(parse(chunk[6..]).error)
    ensures IsDataChunk(chunk) && parse(chunk[6..]) == Ok(Dict(map[])) ==> r == Ok(None)
  {
    if !IsDataChunk(chunk) then Ok(None)
    else
      var data :- parse(chunk[6..]);
      var hasChoices :- PyIn(data, "choices");
      if !hasChoices then Ok(None)
      else
        var choices :- GetItem(data, "choices");
        var choice :- First(choices);
        var delta :- GetItem(choice, "delta");
        var hasContent :- PyIn(delta, "content");
        if !hasContent then Ok(None)
        else
          var content :- GetItem(delta, "content");
          if content.Str? then Ok(Some(Message(content.s)))
          else Err(ValidationError("content: Input should be a valid string"))
  }

  /** The payload of a streamed chat delta: `{"choices": [{"delta": delta}, ...]}`. */
  function DeltaPayload(delta: map<string, Value>, others: seq<Value>): Value {
    Dict(map["choices" := List([Dict(map["delta" := Dict(delta)])] + others)])
  }

  /** A delta carrying text decodes to a message holding exactly that text,
      whatever the other choices are. */
  lemma DeltaDecoded(chunk: string, parse: string -> Result<Value>, text: string, others: seq<Value>)
    requires IsDataChunk(chunk)
    requires parse(chunk[6..]) == Ok(DeltaPayload(map["content" := Str(text)], others))
    ensures SseDecode(chunk, parse) == Ok(Some(Message(text)))
  {
    var delta := Dict(map["content" := Str(text)]);
    var choice := Dict(map["delta" := delta]);
    assert First(List([choice] + others)) == Ok(choice);
    assert GetItem(choice, "delta") == Ok(delta);
  }

  /** A delta without `content` (the role-only first chunk, or the final
      one carrying `finish_reason`) produces no message. */
  lemma EmptyDeltaSkipped(chunk: string, parse: string -> Result<Value>, delta: map<string, Value>, others: seq<Value>)
    requires IsDataChunk(chunk) && "content" !in delta
    requires parse(chunk[6..]) == Ok(DeltaPayload(delta, others))
    ensures SseDecode(chunk, parse) == Ok(None)
  {
    var choice := Dict(map["delta" := Dict(delta)]);
    assert First(List([choice] + others)) == Ok(choice);
  }

  /** A JSON object without `choices` produces no message. */
  lemma NoChoicesSkipped(chunk: string, parse: string -> Result<Value>, fields: map<string, Value>)
    requires IsDataChunk(chunk) && "choices" !in fields
    requires parse(chunk[6..]) == Ok(Dict(fields))
    ensures SseDecode(chunk, parse) == Ok(None)
  {
  }

  /** The `[DONE]` sentinel, and any other chunk with it inside, is
      skipped without being decoded. */
  lemma DoneSkipped(pre: string, post: string, parse: string -> Result<Value>)
    ensures SseDecode(pre + "[DONE]" + post, parse) == Ok(None)
  {
    ContainsAfter(pre, "[DONE]", post);
  }
}
