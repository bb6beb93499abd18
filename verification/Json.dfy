/** JSON trees and their serialisation as a token stream.

    A file holds a sequence of tokens.  A torn write leaves a strict prefix of the stream; the two
    results that matter are that parsing undoes printing and that no strict prefix parses. */
module Json {
  import opened Wrappers

  datatype Json =
    | Null
    | Bool(b: bool)
    | Num(n: int)
    | Str(s: string)
    | Arr(items: seq<Json>)
    | Obj(fields: seq<Field>)

  datatype Field = Field(key: string, value: Json)

  datatype Token =
    | NullToken
    | BoolToken(b: bool)
    | NumToken(n: int)
    | StrToken(s: string)
    | KeyToken(s: string)
    | OpenArr
    | CloseArr
    | OpenObj
    | CloseObj

  function Print(j: Json): seq<Token> {
    match j
    case Null => [NullToken]
    case Bool(b) => [BoolToken(b)]
    case Num(n) => [NumToken(n)]
    case Str(s) => [StrToken(s)]
    case Arr(items) => [OpenArr] + PrintItems(items)
    case Obj(fields) => [OpenObj] + PrintFields(fields)
  }

  function PrintItems(items: seq<Json>): seq<Token> {
    if items == [] then [CloseArr] else Print(items[0]) + PrintItems(items[1..])
  }

  function PrintFields(fields: seq<Field>): seq<Token> {
    if fields == [] then [CloseObj]
    else var Field(key, value) := fields[0];
         [KeyToken(key)] + Print(value) + PrintFields(fields[1..])
  }

  /** Parses one value and returns it with the tokens that follow it. */
  function Parse(ts: seq<Token>): (r: Option<(Json, seq<Token>)>)
    ensures r.Some? ==> |r.value.1| < |ts|
    decreases |ts|, 0
  {
    if ts == [] then None
    else
      match ts[0]
      case NullToken => Some((Null, ts[1..]))
      case BoolToken(b) => Some((Bool(b), ts[1..]))
      case NumToken(n) => Some((Num(n), ts[1..]))
      case StrToken(s) => Some((Str(s), ts[1..]))
      case OpenArr =>
        (match ParseItems(ts[1..])
         case None => None
         case Some((items, rest)) => Some((Arr(items), rest)))
      case OpenObj =>
        (match ParseFields(ts[1..])
         case None => None
         case Some((fields, rest)) => Some((Obj(fields), rest)))
      case KeyToken(_) => None
      case CloseArr => None
      case CloseObj => None
  }

  function ParseItems(ts: seq<Token>): (r: Option<(seq<Json>, seq<Token>)>)
    ensures r.Some? ==> |r.value.1| < |ts|
    decreases |ts|, 1
  {
    if ts == [] then None
    else if ts[0] == CloseArr then Some(([], ts[1..]))
    else
      match Parse(ts)
      case None => None
      case Some((item, rest)) =>
        match ParseItems(rest)
        case None => None
        case Some((items, rest')) => Some(([item] + items, rest'))
  }

  function ParseFields(ts: seq<Token>): (r: Option<(seq<Field>, seq<Token>)>)
    ensures r.Some? ==> |r.value.1| < |ts|
    decreases |ts|, 1
  {
    if ts == [] then None
    else if ts[0] == CloseObj then Some(([], ts[1..]))
    else if !ts[0].KeyToken? then None
    else
      match Parse(ts[1..])
      case None => None
      case Some((v, rest)) =>
        match ParseFields(rest)
        case None => None
        case Some((fields, rest')) => Some(([Field(ts[0].s, v)] + fields, rest'))
  }

  /** Decodes a whole file: one value and nothing after it. */
  function Decode(ts: seq<Token>): Option<Json> {
    match Parse(ts)
    case Some((j, rest)) => if rest == [] then Some(j) else None
    case None => None
  }

  // ----- parsing undoes printing -----

  lemma {:induction false} ParsePrint(j: Json, rest: seq<Token>)
    ensures Parse(Print(j) + rest) == Some((j, rest))
    decreases j, 0
  {
    match j {
      case Arr(items) =>
        ParsePrintItems(items, rest);
        OpenThen(OpenArr, PrintItems(items), rest);
      case Obj(fields) =>
        ParsePrintFields(fields, rest);
        OpenThen(OpenObj, PrintFields(fields), rest);
      case _ =>
        assert |Print(j)| == 1;
        OpenThen(Print(j)[0], [], rest);
    }
  }

  lemma OpenThen(open: Token, body: seq<Token>, rest: seq<Token>)
    ensures var ts := ([open] + body) + rest; |ts| > 0 && ts[0] == open && ts[1..] == body + rest
    ensures [] + rest == rest
    ensures [open] + [] == [open]
  {
  }

  lemma {:induction false} PrintNotClosing(j: Json)
    ensures |Print(j)| > 0 && Print(j)[0] != CloseArr && Print(j)[0] != CloseObj
  {
  }

  lemma {:induction false} ParsePrintItems(items: seq<Json>, rest: seq<Token>)
    ensures ParseItems(PrintItems(items) + rest) == Some((items, rest))
    decreases items
  {
    var ts := PrintItems(items) + rest;
    if items == [] {
      assert ts[1..] == rest;
    } else {
      var tail := PrintItems(items[1..]) + rest;
      PrintNotClosing(items[0]);
      assert ts == Print(items[0]) + tail;
      ParsePrint(items[0], tail);
      ParsePrintItems(items[1..], rest);
      assert [items[0]] + items[1..] == items;
    }
  }

  lemma {:induction false} ParsePrintFields(fields: seq<Field>, rest: seq<Token>)
    ensures ParseFields(PrintFields(fields) + rest) == Some((fields, rest))
    decreases fields
  {
    var ts := PrintFields(fields) + rest;
    if fields == [] {
      assert ts[1..] == rest;
    } else {
      var tail := PrintFields(fields[1..]) + rest;
      assert ts[1..] == Print(fields[0].value) + tail;
      ParsePrint(fields[0].value, tail);
      ParsePrintFields(fields[1..], rest);
      assert [fields[0]] + fields[1..] == fields;
    }
  }

  // ----- appending tokens never changes what was parsed -----

  lemma {:induction false} ParseExtend(ts: seq<Token>, more: seq<Token>)
    requires Parse(ts).Some?
    ensures Parse(ts + more) == Some((Parse(ts).value.0, Parse(ts).value.1 + more))
    decreases |ts|, 0
  {
    assert (ts + more)[1..] == ts[1..] + more;
    match ts[0] {
      case OpenArr => ParseItemsExtend(ts[1..], more);
      case OpenObj => ParseFieldsExtend(ts[1..], more);
      case _ =>
    }
  }

  lemma {:induction false} ParseItemsExtend(ts: seq<Token>, more: seq<Token>)
    requires ParseItems(ts).Some?
    ensures ParseItems(ts + more) == Some((ParseItems(ts).value.0, ParseItems(ts).value.1 + more))
    decreases |ts|, 1
  {
    if ts[0] == CloseArr {
      assert (ts + more)[1..] == ts[1..] + more;
    } else {
      ParseExtend(ts, more);
      ParseItemsExtend(Parse(ts).value.1, more);
    }
  }

  lemma {:induction false} ParseFieldsExtend(ts: seq<Token>, more: seq<Token>)
    requires ParseFields(ts).Some?
    ensures ParseFields(ts + more) == Some((ParseFields(ts).value.0, ParseFields(ts).value.1 + more))
    decreases |ts|, 1
  {
    assert (ts + more)[1..] == ts[1..] + more;
    if ts[0] != CloseObj {
      ParseExtend(ts[1..], more);
      ParseFieldsExtend(Parse(ts[1..]).value.1, more);
    }
  }

  // ----- main results -----

  lemma DecodePrint(j: Json)
    ensures Decode(Print(j)) == Some(j)
  {
    ParsePrint(j, []);
    assert Print(j) + [] == Print(j);
  }

  /** A torn file never decodes: no strict prefix of a printed value parses. */
  lemma NoStrictPrefixDecodes(j: Json, n: nat)
    requires n < |Print(j)|
    ensures Decode(Print(j)[..n]) == None
  {
    var torn, more := Print(j)[..n], Print(j)[n..];
    if Parse(torn).Some? {
      ParseExtend(torn, more);
      assert torn + more == Print(j) == Print(j) + [];
      ParsePrint(j, []);
      assert false;
    }
  }
}
