/** The helpers of src/backend/utils/helpers.py: the upload extension check, the
    uniform response dict and the placeholder bill parser. */
module Helpers {
  import opened Common

  /** Index of the last occurrence of `c` in `s`. */
  function LastIndex(s: string, c: char): (k: Option<nat>)
    ensures k.None? <==> c !in s
    ensures k.Some? ==> k.value < |s| && s[k.value] == c && forall j :: k.value < j < |s| ==> s[j] != c
  {
    if s == [] then None
    else if s[|s| - 1] == c then Some(|s| - 1)
    else
      var k := LastIndex(s[..|s| - 1], c);
      assert forall j :: 0 <= j < |s| - 1 ==> s[j] == s[..|s| - 1][j];
      assert c in s ==> c in s[..|s| - 1] by {
        if c in s {
          var j :| 0 <= j < |s| && s[j] == c;
          assert s[..|s| - 1][j] == c;
        }
      }
      k
  }

  /** `validate_file_extension` (line 14): the name holds a '.', and the text after the
      last '.' (`rsplit('.', 1)[1]`), lower-cased, is one of the allowed entries. */
  function ValidateFileExtension(filename: string, allowed: seq<string>): bool
  {
    var dot := LastIndex(filename, '.');
    dot.Some? && ToLower(filename[dot.value + 1..]) in allowed
  }

  /** The check accepts exactly when some '.' of the name has no '.' after it and the
      lower-cased text after it is allowed; a name without '.' is refused. */
  lemma ValidateFileExtensionSpec(filename: string, allowed: seq<string>)
    ensures ValidateFileExtension(filename, allowed) <==>
              exists k :: 0 <= k < |filename| && filename[k] == '.'
                          && (forall j :: k < j < |filename| ==> filename[j] != '.')
                          && ToLower(filename[k + 1..]) in allowed
    ensures '.' !in filename ==> !ValidateFileExtension(filename, allowed)
  {
    var dot := LastIndex(filename, '.');
  }

  /** A name ending in '.' has the empty extension. */
  lemma TrailingDot(stem: string, allowed: seq<string>)
    ensures ValidateFileExtension(stem + ".", allowed) <==> "" in allowed
  {
    var f := stem + ".";
    assert f[|f| - 1] == '.';
    assert f[|f|..] == [];
  }

  /** The allowed entries are not lower-cased, so an entry holding an upper-case letter
      never matches, whatever the name. */
  lemma UppercaseEntryNeverMatches(filename: string, entry: string)
    requires exists i :: 0 <= i < |entry| && IsAsciiUpper(entry[i])
    ensures !ValidateFileExtension(filename, [entry])
  {
    var dot := LastIndex(filename, '.');
    if dot.Some? {
      var ext := ToLower(filename[dot.value + 1..]);
      assert forall i :: 0 <= i < |ext| ==> !IsAsciiUpper(ext[i]);
    }
  }

  /** A value of the response dict. */
  datatype ResponseValue<D> = Flag(b: bool) | Message(text: string) | Payload(data: D) | Null

  /** `generate_response` (lines 16-23): the dict with exactly the keys success,
      message and data; data is None unless given. */
  function GenerateResponse<D>(success: bool, message: string, data: Option<D> := None): (r: map<string, ResponseValue<D>>)
    ensures r.Keys == {"success", "message", "data"}
    ensures r["success"] == Flag(success) && r["message"] == Message(message)
    ensures r["data"] == Null <==> data.None?
    ensures data.Some? ==> r["data"] == Payload(data.value)
  {
    map["success" := Flag(success), "message" := Message(message),
        "data" := if data.Some? then Payload(data.value) else Null]
  }

  /** `parse_bill_data` (lines 1-6): the empty dict, whatever it is given. */
  function ParseBillData<T>(billData: T): (r: map<string, string>)
    ensures |r| == 0
  {
    map[]
  }
}
