/**
 * The text stored as the value of a user's `"file"` row: the JSON object
 * `{"name": <name>, "id": <id>}` as `json.dumps` lays it out, and the
 * reading of its `id` field that `json.loads` performs when the user is
 * deleted.
 */
module FileRecord {
  import opened Wrappers

  /** The text before the name, between the two fields, and after the id. */
  const Head: string := "{\"name\": \""
  const Middle: string := ", \"id\": \""
  const Tail: string := "}"

  /** The body of a JSON string literal: `"` and `\` are preceded by `\`. */
  function Escape(s: string): string {
    if s == [] then []
    else (if s[0] == '"' || s[0] == '\\' then ['\\', s[0]] else [s[0]]) + Escape(s[1..])
  }

  /** The record written for one uploaded file. */
  function Encode(name: string, id: string): string {
    Head + Escape(name) + "\"" + Middle + Escape(id) + "\"" + Tail
  }

  /**
   * Reads the body of a JSON string literal up to its closing quote,
   * undoing the escapes `\"`, `\\` and `\/`; returns the body and the text
   * after the closing quote, or None when the literal is not closed or
   * holds another escape.
   */
  function ReadString(s: string): (r: Option<(string, string)>)
    ensures r.Some? ==> |r.value.1| < |s|
  {
    if s == [] then None
    else if s[0] == '"' then Some(([], s[1..]))
    else if s[0] == '\\' then
      if |s| < 2 || !(s[1] == '"' || s[1] == '\\' || s[1] == '/') then None
      else match ReadString(s[2..])
        case None => None
        case Some(p) => Some(([s[1]] + p.0, p.1))
    else match ReadString(s[1..])
      case None => None
      case Some(p) => Some(([s[0]] + p.0, p.1))
  }

  /** The `(name, id)` pair of a record laid out as Encode lays it out. */
  function Decode(s: string): Option<(string, string)> {
    if !(Head <= s) then None
    else match ReadString(s[|Head|..])
      case None => None
      case Some(n) =>
        if !(Middle <= n.1) then None
        else match ReadString(n.1[|Middle|..])
          case None => None
          case Some(i) => if i.1 == Tail then Some((n.0, i.0)) else None
  }

  /** `json.loads(value)['id']`: the id a record names, or None when it cannot be read. */
  function FileId(value: string): Option<string> {
    match Decode(value)
    case None => None
    case Some(p) => Some(p.1)
  }

  /** Reading an escaped body back yields the original text and what followed the quote. */
  lemma {:induction false} ReadEscaped(x: string, rest: string)
    ensures ReadString(Escape(x) + "\"" + rest) == Some((x, rest))
  {
    if x == [] {
      assert Escape(x) + "\"" + rest == ['"'] + rest;
    } else {
      var c := x[0];
      ReadEscaped(x[1..], rest);
      var tail := Escape(x[1..]) + "\"" + rest;
      assert [c] + x[1..] == x;
      if c == '"' || c == '\\' {
        var s := ['\\', c] + tail;
        assert Escape(x) == ['\\', c] + Escape(x[1..]);
        AppendAssoc(['\\', c], Escape(x[1..]), "\"");
        AppendAssoc(['\\', c], Escape(x[1..]) + "\"", rest);
        assert s[0] == '\\' && s[1] == c && s[2..] == tail;
        assert ReadString(s) == Some(([c] + x[1..], rest));
      } else {
        var s := [c] + tail;
        assert Escape(x) == [c] + Escape(x[1..]);
        AppendAssoc([c], Escape(x[1..]), "\"");
        AppendAssoc([c], Escape(x[1..]) + "\"", rest);
        assert s[0] == c && s[1..] == tail;
        assert ReadString(s) == Some(([c] + x[1..], rest));
      }
    }
  }

  /** What create_files writes, delete_assistant reads back: the round trip of a record. */
  lemma DecodeEncode(name: string, id: string)
    ensures Decode(Encode(name, id)) == Some((name, id))
    ensures FileId(Encode(name, id)) == Some(id)
  {
    var e1, e2, q := Escape(name), Escape(id), "\"";
    var idPart := e2 + q + Tail;
    var tail := Middle + idPart;
    var namePart := e1 + q + tail;
    var s := Encode(name, id);
    var x := Head + e1 + q;
    AppendAssoc(x + Middle, e2, q);
    AppendAssoc(x + Middle, e2 + q, Tail);
    AppendAssoc(x, Middle, idPart);
    AppendAssoc(Head + e1, q, tail);
    AppendAssoc(Head, e1, q + tail);
    AppendAssoc(e1, q, tail);
    assert s == Head + namePart;
    assert Head <= s && s[|Head|..] == namePart;
    ReadEscaped(name, tail);
    assert Middle <= tail && tail[|Middle|..] == idPart;
    ReadEscaped(id, Tail);
  }

  /** Distinct `(name, id)` pairs give distinct records, so each pair gets its own row. */
  lemma EncodeInjective(n1: string, i1: string, n2: string, i2: string)
    ensures Encode(n1, i1) == Encode(n2, i2) <==> n1 == n2 && i1 == i2
  {
    DecodeEncode(n1, i1);
    DecodeEncode(n2, i2);
  }
}
