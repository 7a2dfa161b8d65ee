// Python's view of parsed JSON values, where the components depend on it.
module HostValues {
  import opened Text
  import opened JsonText
  import opened Digest

  // What is left open about the host: the hash, the number a float's repr denotes, and the text
  // str() gives a list or dict.
  datatype Host = Host(sha: Hash, floatValue: string -> real, containerText: Json -> string)

  function PyStr(host: Host, j: Json): string {
    match j
    case Null => "None"
    case Bool(b) => if b then "True" else "False"
    case Int(n) => Decimal(n)
    case Float(text) => text
    case Str(s) => s
    case _ => host.containerText(j)
  }

  // `value == n` for a parsed JSON value.
  predicate EqualsInt(host: Host, j: Json, n: int) {
    match j
    case Bool(b) => (if b then 1 else 0) == n
    case Int(m) => m == n
    case Float(text) => host.floatValue(text) == n as real
    case _ => false
  }

  // How Python prints and compares the values that are not numbers or strings: true is 1 and "True".
  lemma PythonView(host: Host, n: int)
    ensures PyStr(host, Null) == "None" && PyStr(host, Bool(true)) == "True" && PyStr(host, Bool(false)) == "False"
    ensures EqualsInt(host, Bool(true), n) <==> n == 1
    ensures EqualsInt(host, Bool(false), n) <==> n == 0
    ensures !EqualsInt(host, Null, n) && !EqualsInt(host, Str(Decimal(n)), n) && EqualsInt(host, Int(n), n)
    ensures !IsNumber(Bool(true)) && !IsNumber(Null) && !IsNumber(Str(Decimal(n))) && IsNumber(Int(n))
  {}

  // int or float, but not bool.
  predicate IsNumber(j: Json) {
    j.Int? || j.Float?
  }

  function NumberOf(host: Host, j: Json): real
    requires IsNumber(j)
  {
    if j.Int? then j.n as real else host.floatValue(j.text)
  }
}
