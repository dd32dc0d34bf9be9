/**
 * `BinanceException`, raised by every endpoint function on a response whose
 * status is not 200, and the status check that raises it.
 */
module Exceptions {
  import opened Wrappers
  import opened Decimal
  import opened Python

  /** The exception's fields and the message it passes to `Exception`. */
  datatype BinanceException = BinanceException(statusCode: int, code: PyValue, msg: PyValue, message: string)

  /**
   * A truthy body is indexed by `'code'` and `'msg'`; anything but a dict
   * holding both keys would raise `TypeError` or `KeyError` there instead.
   */
  predicate ErrorBodyReadable(data: Body) {
    Truthy(data) ==> data.Dict? && "code" in data.entries && "msg" in data.entries
  }

  /** The text before the first `stop`, or all of it when there is none. */
  function TakeUntil(text: string, stop: char): (w: string)
    ensures stop !in w
  {
    if |text| == 0 || text[0] == stop then [] else [text[0]] + TakeUntil(text[1..], stop)
  }

  /** The text after the first `stop`, or nothing when there is none. */
  function DropThrough(text: string, stop: char): string {
    if |text| == 0 then [] else if text[0] == stop then text[1..] else DropThrough(text[1..], stop)
  }

  /** The status code as read back from the start of a message. */
  function MessageStatus(message: string): Option<int> {
    ParseInteger(TakeUntil(message, ' '))
  }

  /** The text between the first `[` of a message and the `]` after it. */
  function MessageCodeText(message: string): string {
    TakeUntil(DropThrough(message, '['), ']')
  }

  lemma {:induction false} TakeUntilPrefix(w: string, stop: char, rest: string)
    requires stop !in w
    ensures TakeUntil(w + [stop] + rest, stop) == w
  {
    if |w| > 0 {
      assert (w + [stop] + rest)[1..] == w[1..] + [stop] + rest;
      TakeUntilPrefix(w[1..], stop, rest);
    } else {
      assert (w + [stop] + rest)[0] == stop;
    }
  }

  lemma {:induction false} DropThroughPrefix(w: string, stop: char, rest: string)
    requires stop !in w
    ensures DropThrough(w + [stop] + rest, stop) == rest
  {
    if |w| > 0 {
      assert (w + [stop] + rest)[1..] == w[1..] + [stop] + rest;
      DropThroughPrefix(w[1..], stop, rest);
    } else {
      assert w + [stop] + rest == [stop] + rest;
    }
  }

  lemma StatusReadBack(statusCode: int, tail: string)
    ensures MessageStatus(IntToString(statusCode) + " " + tail) == Some(statusCode)
  {
    TakeUntilPrefix(IntToString(statusCode), ' ', tail);
    ParseIntegerOfIntToString(statusCode);
  }

  lemma CodeTextReadBack(head: string, codeText: string, tail: string)
    requires '[' !in head && ']' !in codeText
    ensures MessageCodeText(head + "[" + codeText + "]" + tail) == codeText
  {
    assert head + "[" + codeText + "]" + tail == head + ['['] + (codeText + [']'] + tail);
    DropThroughPrefix(head, '[', codeText + [']'] + tail);
    TakeUntilPrefix(codeText, ']', tail);
  }

  /** How the parts of `"{status_code} [{code}] {msg}"` read back out of it. */
  lemma MessageReadBack(statusCode: int, code: PyValue, msg: PyValue)
    ensures var message := IntToString(statusCode) + " [" + ToStr(code) + "] " + ToStr(msg);
            && MessageStatus(message) == Some(statusCode)
            && (']' !in ToStr(code) ==> MessageCodeText(message) == ToStr(code))
            && (code.PyInt? ==> ParseInteger(MessageCodeText(message)) == Some(code.i))
  {
    var status := IntToString(statusCode);
    var codeText := ToStr(code);
    var msgText := ToStr(msg);
    MessageParts(status, codeText, msgText);
    StatusReadBack(statusCode, "[" + codeText + "] " + msgText);
    if ']' !in codeText {
      CodeTextReadBack(status + " ", codeText, " " + msgText);
    }
    if code.PyInt? {
      assert ']' !in IntToString(code.i);
    }
  }

  lemma MessageParts(status: string, codeText: string, msgText: string)
    requires forall k :: 0 <= k < |status| ==> status[k] == '-' || IsDigit(status[k])
    ensures var message := status + " [" + codeText + "] " + msgText;
            && message == status + " " + ("[" + codeText + "] " + msgText)
            && message == (status + " ") + "[" + codeText + "]" + (" " + msgText)
            && '[' !in status + " "
  {
  }

  /**
   * `BinanceException(status_code, data)`. The message is
   * `"{status_code} [{code}] {msg}"`: its first word reads back as the status,
   * and the bracket holds `str(code)`, which reads back as the code when it is an int.
   */
  function NewBinanceException(statusCode: int, data: Body): (e: BinanceException)
    requires ErrorBodyReadable(data)
    ensures e.statusCode == statusCode
    ensures Truthy(data) ==> e.code == data.entries["code"] && e.msg == data.entries["msg"]
    ensures !Truthy(data) ==> e.code == PyNone && e.msg == PyNone
    ensures e.message == IntToString(statusCode) + " [" + ToStr(e.code) + "] " + ToStr(e.msg)
    ensures MessageStatus(e.message) == Some(statusCode)
    ensures ']' !in ToStr(e.code) ==> MessageCodeText(e.message) == ToStr(e.code)
    ensures e.code.PyInt? ==> ParseInteger(MessageCodeText(e.message)) == Some(e.code.i)
  {
    var code := if Truthy(data) then data.entries["code"] else PyNone;
    var msg := if Truthy(data) then data.entries["msg"] else PyNone;
    MessageReadBack(statusCode, code, msg);
    BinanceException(statusCode, code, msg, IntToString(statusCode) + " [" + ToStr(code) + "] " + ToStr(msg))
  }

  /** With an empty or otherwise falsy body both fields are `None`, and the message says so. */
  lemma FalsyBodyMessage(statusCode: int, data: Body)
    requires !Truthy(data)
    ensures NewBinanceException(statusCode, data).message == IntToString(statusCode) + " [None] None"
  {
  }

  /** An exception from a readable error body, as the exchange sends it. */
  lemma InvalidSymbolMessage()
    ensures NewBinanceException(400, Dict(map["code" := PyInt(-1121), "msg" := PyStr("Invalid symbol.")])).message
         == "400 [-1121] Invalid symbol."
  {
    var data := Dict(map["code" := PyInt(-1121), "msg" := PyStr("Invalid symbol.")]);
    assert Truthy(data) by {
      assert data.entries.Keys == {"code", "msg"};
    }
    var e := NewBinanceException(400, data);
    assert e.message == IntToString(400) + " [" + ToStr(PyInt(-1121)) + "] " + ToStr(PyStr("Invalid symbol."));
    RenderFourHundred();
    RenderInvalidSymbolCode();
    InvalidSymbolText();
  }

  lemma InvalidSymbolText()
    ensures "400" + " [" + "-1121" + "] " + "Invalid symbol." == "400 [-1121] Invalid symbol."
  {
  }

  lemma RenderFourHundred()
    ensures IntToString(400) == "400"
  {
    assert NatToString(40) == "40";
  }

  lemma RenderInvalidSymbolCode()
    ensures IntToString(-1121) == "-1121"
  {
    assert NatToString(11) == "11";
    assert NatToString(112) == "112";
    assert NatToString(1121) == "1121";
  }

  /**
   * The status test every endpoint function makes after its request: 200 gives
   * the decoded body, any other status raises `BinanceException`.
   */
  function CheckResponse(statusCode: int, data: Body): (r: Result<Body, BinanceException>)
    requires statusCode != 200 ==> ErrorBodyReadable(data)
    ensures r.Ok? <==> statusCode == 200
    ensures r.Ok? ==> r.value == data
    ensures r.Err? ==> r.error == NewBinanceException(statusCode, data)
    ensures r.Err? ==> r.error.statusCode == statusCode && MessageStatus(r.error.message) == Some(statusCode)
  {
    if statusCode == 200 then Ok(data) else Err(NewBinanceException(statusCode, data))
  }
}
