/** The response parser: a one-shot trailing-comma repair of the raw reply,
    JSON decoding, and the extraction of `comment` and `command`, with a
    fallback comment when anything in that goes wrong. */
module Parser {
  import opened Python
  import opened Json

  /** What the JSON decoder makes of a text: a value, or the text of its
      decoding error. The decoder itself is supplied by the host. */
  datatype Decoded = Decoded(value: Json) | DecodeFailed(message: string)

  /** The triple `(comment, command, error_message)`. An absent `command`
      and JSON `null` are both Python's `None`, written `JNull` here. */
  datatype Parsed = Parsed(comment: Json, command: Json, error: Option<string>)

  /** The result of the parser's `try` block: the two fields it read, or the
      text of the exception it caught. */
  datatype Attempt = Read(comment: Json, command: Json) | Caught(message: string)

  predicate EndsWith(s: string, suffix: string) {
    |s| >= |suffix| && s[|s| - |suffix|..] == suffix
  }

  /** The one malformation the parser repairs: a comma right before the
      closing brace at the very end. */
  function Repair(s: string): (r: string)
    ensures EndsWith(s, ",}") ==> |r| == |s| - 1 && r[..|r| - 1] == s[..|s| - 2] && r[|r| - 1] == '}'
    ensures !EndsWith(s, ",}") ==> r == s
  {
    if EndsWith(s, ",}") then s[..|s| - 2] + "}" else s
  }

  /** Putting the comma back in front of the final brace of a repaired text
      gives back the raw text: the repair removes exactly that one comma. */
  lemma RepairRemovesOneComma(s: string)
    requires EndsWith(s, ",}")
    ensures var r := Repair(s); s == r[..|r| - 1] + ",}"
  {
  }

  /** The repair runs once: its output still ends in `,}` exactly when the
      input ended in `,,}`. */
  lemma RepairLeavesCommaIff(s: string)
    ensures EndsWith(Repair(s), ",}") <==> EndsWith(s, ",,}")
  {
    var r := Repair(s);
    if EndsWith(s, ",}") {
      assert r[|r| - 1] == '}';
      if |s| >= 3 {
        assert r[|r| - 2] == s[|s| - 3];
        if EndsWith(s, ",,}") {
          assert r[|r| - 2..] == [s[|s| - 3], '}'];
        }
        if EndsWith(r, ",}") {
          assert s[|s| - 3..] == [r[|r| - 2], ',', '}'];
        }
      }
    }
  }

  /** So the repair is idempotent exactly on texts that do not end in `,,}`;
      `,,}` becomes `,}`, not `}`. */
  lemma RepairIdempotentIff(s: string)
    ensures Repair(Repair(s)) == Repair(s) <==> !EndsWith(s, ",,}")
  {
    RepairLeavesCommaIff(s);
    var r := Repair(s);
    if EndsWith(r, ",}") {
      assert |Repair(r)| == |r| - 1;
    }
  }

  lemma RepairNotIdempotent()
    ensures Repair(",,}") == ",}" && Repair(Repair(",,}")) == "}"
  {
  }

  /** The `try` block: decode the repaired text, read `comment` (required)
      and `command` (optional). Any exception on the way is caught. */
  function Try(text: string, decode: string -> Decoded): (a: Attempt)
    ensures a.Read? <==> decode(text).Decoded? && decode(text).value.JObject? && "comment" in decode(text).value.members
    ensures a.Read? ==> a.comment == decode(text).value.members["comment"]
    ensures a.Read? ==> a.command == GetOrNull(decode(text).value.members, "command")
    ensures decode(text).DecodeFailed? ==> a == Caught(decode(text).message)
    ensures decode(text).Decoded? && decode(text).value.JObject? && a.Caught? ==> a.message == "'comment'"
  {
    match decode(text)
    case DecodeFailed(m) => Caught(m)
    case Decoded(v) =>
      match Index(v, "comment")
      case Raised(e) => Caught(e.Str())
      case Value(comment) => Read(comment, GetOrNull(v.members, "command"))
  }

  /** The fallback triple: a comment naming the text that failed and the
      error, no command, and the error text as `error_message`. */
  function Fallback(text: string, message: string): (p: Parsed)
    ensures p.comment.JString? && p.command == JNull && p.error == Some(message)
    ensures |p.comment.s| > 17 + |text| && p.comment.s[17..17 + |text|] == text
    ensures p.comment.s[..17] == "Unable to parse: "
  {
    Parsed(JString("Unable to parse: " + text + " \n Error: " + message), JNull, Some(message))
  }

  /** The parser as written: on the success path `error_message` is never
      bound, so building the returned triple raises. */
  function ParseAsWritten(raw: string, decode: string -> Decoded): (r: Outcome<Parsed>)
    ensures r.Raised? <==> Try(Repair(raw), decode).Read?
    ensures r.Raised? ==> r.exc == UnboundLocalError("error_message")
  {
    var text := Repair(raw);
    match Try(text, decode)
    case Caught(m) => Value(Fallback(text, m))
    case Read(_, _) => Raised(UnboundLocalError("error_message"))
  }

  /** The parser as evidently intended, with `error_message` initialised to
      `None`: it never raises. */
  function Parse(raw: string, decode: string -> Decoded): (p: Parsed)
    ensures p.error.None? <==> Try(Repair(raw), decode).Read?
  {
    var text := Repair(raw);
    match Try(text, decode)
    case Caught(m) => Fallback(text, m)
    case Read(comment, command) => Parsed(comment, command, None)
  }

  /** A reply that decodes to an object holding `comment` yields that comment
      and its `command` (JSON `null` when absent), with no error. */
  lemma ParseSuccess(raw: string, decode: string -> Decoded)
    requires decode(Repair(raw)).Decoded?
    requires decode(Repair(raw)).value.JObject? && "comment" in decode(Repair(raw)).value.members
    ensures var m := decode(Repair(raw)).value.members;
            Parse(raw, decode) == Parsed(m["comment"], if "command" in m then m["command"] else JNull, None)
  {
  }

  /** Any other reply falls back, and the fallback embeds the repaired text,
      not the raw one, together with the error text. */
  lemma ParseFallback(raw: string, decode: string -> Decoded)
    requires !(decode(Repair(raw)).Decoded? && decode(Repair(raw)).value.JObject?
               && "comment" in decode(Repair(raw)).value.members)
    ensures var text := Repair(raw);
            var p := Parse(raw, decode);
            && p.command == JNull && p.error.Some?
            && p.comment == JString("Unable to parse: " + text + " \n Error: " + p.error.value)
            && (decode(text).DecodeFailed? ==> p.error.value == decode(text).message)
            && (decode(text).Decoded? && decode(text).value.JObject? ==> p.error.value == "'comment'")
            && (decode(text).Decoded? && !decode(text).value.JObject? ==> p.error.value == NotSubscriptable(decode(text).value))
  {
  }

  /** Whenever the reply decodes to an object with a `comment`, the parser as
      written raises instead of returning; on every other reply it agrees
      with the intended parser. */
  lemma ParseAsWrittenDiffers(raw: string, decode: string -> Decoded)
    ensures ParseAsWritten(raw, decode).Raised? <==> Parse(raw, decode).error.None?
    ensures ParseAsWritten(raw, decode).Value? ==> ParseAsWritten(raw, decode).value == Parse(raw, decode)
  {
  }

  /** A concrete reply that shows it: `{"comment":"ok",}` is repaired,
      decodes, and then the return raises. */
  lemma TrailingCommaReplyRaises(decode: string -> Decoded)
    requires decode("{\"comment\":\"ok\"}") == Decoded(JObject(map["comment" := JString("ok")]))
    ensures ParseAsWritten("{\"comment\":\"ok\",}", decode) == Raised(UnboundLocalError("error_message"))
    ensures Parse("{\"comment\":\"ok\",}", decode) == Parsed(JString("ok"), JNull, None)
  {
    assert Repair("{\"comment\":\"ok\",}") == "{\"comment\":\"ok\"}";
  }
}
