/**
 * The two template filters of `utils/filters.py`: the price format without
 * currency sign and the JSON-text decoder. Prices are whole pesos; the
 * JSON parser itself is a parameter of the model.
 */
module Filters {
  import opened Wrappers
  import opened Text
  import HostTickets
  import opened PrintClient

  /**
   * `format_price`: the price with '.' between groups of three digits and
   * no currency sign; a value that does not convert to a number (given
   * here as None) prints as "0".
   */
  function FormatPrice(valor: Option<int>): (r: string)
    ensures valor.None? ==> r == "0"
    ensures valor.Some? && valor.value < 0 ==> r == "-" + Group(-valor.value, '.')
    ensures valor.Some? && valor.value >= 0 ==> r == Group(valor.value, '.')
  {
    match valor
    case None => "0"
    case Some(n) => GroupInt(n, '.')
  }

  /** Every character of a grouped number is a digit or the separator. */
  lemma {:induction false} GroupCharset(n: nat, sep: char)
    ensures forall i :: 0 <= i < |Group(n, sep)| ==> IsDigit(Group(n, sep)[i]) || Group(n, sep)[i] == sep
    decreases n
  {
    if n >= 1000 {
      GroupCharset(n / 1000, sep);
      var h, p := Group(n / 1000, sep), ZeroPad(n % 1000, 3);
      assert Group(n, sep) == h + [sep] + p;
      forall i | 0 <= i < |Group(n, sep)|
        ensures IsDigit(Group(n, sep)[i]) || Group(n, sep)[i] == sep
      {
        if i > |h| {
          assert Group(n, sep)[i] == p[i - |h| - 1];
        }
      }
    }
  }

  /**
   * A non-negative price is its decimal digits with a '.' exactly at every
   * fourth position from the right and no other character: no currency
   * sign, no sign.
   */
  lemma FormatPriceShape(n: nat)
    ensures Without(FormatPrice(Some(n)), '.') == NatToString(n)
    ensures forall i :: 0 <= i < |FormatPrice(Some(n))| ==>
      (FormatPrice(Some(n))[i] == '.' <==> (|FormatPrice(Some(n))| - i) % 4 == 0)
    ensures forall i :: 0 <= i < |FormatPrice(Some(n))| ==> IsDigit(FormatPrice(Some(n))[i]) || FormatPrice(Some(n))[i] == '.'
  {
    GroupDigits(n, '.');
    GroupSeparators(n, '.');
    GroupCharset(n, '.');
  }

  /** The price contains no '$', whatever the input. */
  lemma FormatPriceNoCurrency(valor: Option<int>)
    ensures '$' !in FormatPrice(valor)
  {
    if valor.Some? {
      var n := valor.value;
      var m: nat := if n < 0 then -n else n;
      GroupCharset(m, '.');
      var g := Group(m, '.');
      if n < 0 {
        assert FormatPrice(valor) == "-" + g;
        assert forall i :: 0 <= i < |g| ==> g[i] != '$';
      } else {
        assert forall i :: 0 <= i < |g| ==> g[i] != '$';
      }
    }
  }

  /**
   * The filter and the relay's `_format_precio` agree up to the currency
   * sign, including on unconvertible input ("0" against "$0").
   */
  lemma FormatPriceIsFormatPrecio(valor: Option<int>)
    ensures HostTickets.FormatPrecio(valor) == "$" + FormatPrice(valor)
  {
  }

  /**
   * `from_json`: a string is handed to the JSON parser `loads` and its
   * result returned, an unparsable string gives []; any other value is
   * returned as it is.
   */
  function FromJson(value: Json, loads: string -> Option<Json>): (r: Json)
    ensures !value.JStr? ==> r == value
    ensures value.JStr? && loads(value.s).None? ==> r == JArr([])
    ensures value.JStr? && loads(value.s).Some? ==> r == loads(value.s).value
  {
    match value
    case JStr(s) => if loads(s).Some? then loads(s).value else JArr([])
    case _ => value
  }

  /**
   * Text written by a serialiser that `loads` reads back comes out of the
   * filter as the value that was serialised.
   */
  lemma FromJsonRoundTrip(v: Json, dumps: Json -> string, loads: string -> Option<Json>)
    requires loads(dumps(v)) == Some(v)
    ensures FromJson(JStr(dumps(v)), loads) == v
  {
  }
}
