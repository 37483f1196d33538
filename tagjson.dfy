// The JSON text the settings store keeps for a list of tag names (encoding/json on []string),
// reduced to a concrete codec: strings in double quotes with '"' and '\' escaped by a backslash.
module TagJson {
  import opened Wrappers

  function Escape(t: string): string {
    if t == [] then []
    else (if t[0] == '"' || t[0] == '\\' then ['\\', t[0]] else [t[0]]) + Escape(t[1..])
  }

  function Quote(t: string): string { ['"'] + Escape(t) + ['"'] }

  /** json.Marshal of a list of strings; the empty list is written "[]". */
  function Encode(ts: seq<string>): string {
    if ts == [] then "[]" else "[" + Quote(ts[0]) + EncodeRest(ts[1..])
  }

  function EncodeRest(ts: seq<string>): string {
    if ts == [] then "]" else "," + Quote(ts[0]) + EncodeRest(ts[1..])
  }

  /** Reads the body of a string after its opening quote: the text and what follows the closing quote. */
  function ReadString(s: string): (r: Option<(string, string)>)
    ensures r.Some? ==> |r.value.1| < |s|
  {
    if s == [] then None
    else if s[0] == '"' then Some(([], s[1..]))
    else if s[0] == '\\' then
      if |s| >= 2 && (s[1] == '"' || s[1] == '\\') then
        match ReadString(s[2..])
        case Some((t, rest)) => Some(([s[1]] + t, rest))
        case None => None
      else None
    else
      match ReadString(s[1..])
      case Some((t, rest)) => Some(([s[0]] + t, rest))
      case None => None
  }

  /** Reads the elements that follow the first one, up to the closing bracket that ends the text. */
  function ReadRest(s: string): Option<seq<string>>
    decreases |s|
  {
    if s == "]" then Some([])
    else if |s| >= 2 && s[0] == ',' && s[1] == '"' then
      match ReadString(s[2..])
      case None => None
      case Some((t, rest)) =>
        match ReadRest(rest)
        case Some(ts) => Some([t] + ts)
        case None => None
    else None
  }

  /** json.Unmarshal into a list of strings; "null" is the empty list. */
  function Decode(s: string): Option<seq<string>> {
    if s == "null" || s == "[]" then Some([])
    else if |s| >= 2 && s[0] == '[' && s[1] == '"' then
      match ReadString(s[2..])
      case None => None
      case Some((t, rest)) =>
        match ReadRest(rest)
        case Some(ts) => Some([t] + ts)
        case None => None
    else None
  }

  lemma {:induction false} ReadEscaped(t: string, rest: string)
    ensures ReadString(Escape(t) + ['"'] + rest) == Some((t, rest))
  {
    if t == [] {
      assert Escape(t) + ['"'] + rest == ['"'] + rest;
    } else {
      var body := Escape(t[1..]) + ['"'] + rest;
      ReadEscaped(t[1..], rest);
      var s := Escape(t) + ['"'] + rest;
      if t[0] == '"' || t[0] == '\\' {
        assert s == ['\\', t[0]] + body;
        assert s[0] == '\\' && s[1] == t[0] && s[2..] == body;
      } else {
        assert s == [t[0]] + body;
        assert s[0] == t[0] && s[1..] == body;
      }
      assert [t[0]] + t[1..] == t;
    }
  }

  lemma {:induction false} ReadEncodedRest(ts: seq<string>)
    ensures ReadRest(EncodeRest(ts)) == Some(ts)
  {
    if ts != [] {
      var s := EncodeRest(ts);
      assert s == ",\"" + (Escape(ts[0]) + ['"'] + EncodeRest(ts[1..]));
      assert s[2..] == Escape(ts[0]) + ['"'] + EncodeRest(ts[1..]);
      ReadEscaped(ts[0], EncodeRest(ts[1..]));
      ReadEncodedRest(ts[1..]);
      assert [ts[0]] + ts[1..] == ts;
    }
  }

  /** The text of a non-empty list: an opening bracket and quote, then the first name's body. */
  lemma EncodedShape(ts: seq<string>)
    requires ts != []
    ensures Encode(ts) == ['[', '"'] + (Escape(ts[0]) + ['"'] + EncodeRest(ts[1..]))
  {
  }

  /** Text that starts a list of strings is neither of the two spellings of the empty list. */
  lemma OpenedText(s: string)
    requires |s| >= 2 && s[0] == '[' && s[1] == '"'
    ensures s != "null" && s != "[]"
  {
    assert "null"[0] == 'n' && "[]"[1] == ']';
  }

  /** Every list of tag names comes back unchanged from its JSON text. */
  lemma DecodeEncode(ts: seq<string>)
    ensures Decode(Encode(ts)) == Some(ts)
  {
    if ts != [] {
      var body := Escape(ts[0]) + ['"'] + EncodeRest(ts[1..]);
      ReadEscaped(ts[0], EncodeRest(ts[1..]));
      ReadEncodedRest(ts[1..]);
      var s := Encode(ts);
      EncodedShape(ts);
      assert s[0] == '[' && s[1] == '"' && s[2..] == body;
      OpenedText(s);
      assert [ts[0]] + ts[1..] == ts;
    }
  }
}
