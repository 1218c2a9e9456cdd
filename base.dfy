/** Small value helpers shared by the server and the client model:
    an Option type, JavaScript truthiness of an optional string, and
    ASCII case mapping (the only case mapping the model interprets). */
module Base {

  datatype Option<+T> = None | Some(value: T) {
    function GetOr(default: T): T {
      match this
      case Some(v) => v
      case None => default
    }
  }

  /** JavaScript truthiness of a value that is either absent or a string:
      `undefined`, `null` and `""` are falsy, every other string is truthy. */
  predicate Truthy(o: Option<string>) {
    o.Some? && o.value != ""
  }

  predicate IsUpperAscii(c: char) { 'A' <= c <= 'Z' }
  predicate IsLowerAscii(c: char) { 'a' <= c <= 'z' }

  function LowerChar(c: char): (r: char)
    ensures IsUpperAscii(c) ==> IsLowerAscii(r)
    ensures !IsUpperAscii(c) ==> r == c
  {
    if IsUpperAscii(c) then (c as int + 32) as char else c
  }

  function UpperChar(c: char): (r: char)
    ensures IsLowerAscii(c) ==> IsUpperAscii(r)
    ensures !IsLowerAscii(c) ==> r == c
  {
    if IsLowerAscii(c) then (c as int - 32) as char else c
  }

  /** `String.prototype.toLowerCase`, restricted to ASCII letters. */
  function ToLower(s: string): (r: string)
    ensures |r| == |s|
    ensures forall i :: 0 <= i < |s| ==> r[i] == LowerChar(s[i])
  {
    if s == [] then [] else [LowerChar(s[0])] + ToLower(s[1..])
  }

  /** A string already in lower case is left as it is. */
  predicate NoUpperAscii(s: string) {
    forall i :: 0 <= i < |s| ==> !IsUpperAscii(s[i])
  }

  lemma ToLowerOfLower(s: string)
    requires NoUpperAscii(s)
    ensures ToLower(s) == s
  {
    var r := ToLower(s);
    assert forall i :: 0 <= i < |s| ==> r[i] == s[i];
  }

  /** Lower-casing a capitalised word only changes its first letter. */
  lemma LowerOfCapitalised(s: string, want: string)
    requires |s| == |want| > 0 && IsUpperAscii(s[0]) && want[0] == (s[0] as int + 32) as char
    requires forall i :: 1 <= i < |s| ==> s[i] == want[i] && !IsUpperAscii(s[i])
    ensures ToLower(s) == want
  {
    var t := ToLower(s);
    forall i | 0 <= i < |s| ensures t[i] == want[i] {
      assert t[i] == LowerChar(s[i]);
    }
  }
}
