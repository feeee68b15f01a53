/** The part of `json.dumps(..., ensure_ascii=False)` that the agent code relies on. */
module Json {

  function HexDigit(n: int): char
    requires 0 <= n < 16
  {
    "0123456789abcdef"[n]
  }

  function EscapeChar(c: char): string {
    if c == '"' then "\\\""
    else if c == '\\' then "\\\\"
    else if c == '\n' then "\\n"
    else if c == '\r' then "\\r"
    else if c == '\t' then "\\t"
    else if c as int == 8 then "\\b"
    else if c as int == 12 then "\\f"
    else if (c as int) < 0x20 then "\\u00" + [HexDigit(c as int / 16), HexDigit(c as int % 16)]
    else [c]
  }

  /** Every character replaced by its text. */
  function Mapped(s: string, text: char -> string): string {
    if s == "" then "" else text(s[0]) + Mapped(s[1..], text)
  }

  function Escape(s: string): string {
    Mapped(s, EscapeChar)
  }

  function Quote(s: string): string {
    "\"" + Escape(s) + "\""
  }

  function Bool(b: bool): string {
    if b then "true" else "false"
  }

  lemma {:induction false} MappedConcat(a: string, b: string, text: char -> string)
    ensures Mapped(a + b, text) == Mapped(a, text) + Mapped(b, text)
  {
    if a == "" {
      assert a + b == b;
    } else {
      MappedConcat(a[1..], b, text);
      assert (a + b)[1..] == a[1..] + b;
      assert text(a[0]) + (Mapped(a[1..], text) + Mapped(b, text)) == text(a[0]) + Mapped(a[1..], text) + Mapped(b, text);
    }
  }

  /** Escaping works character by character. */
  lemma {:induction false} EscapeConcat(a: string, b: string)
    ensures Escape(a + b) == Escape(a) + Escape(b)
  {
    MappedConcat(a, b, EscapeChar);
  }
}
