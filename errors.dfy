/** Error classification. An error is modelled by its message text; the
    classifier looks for the JSON field `"code": ` that the service puts in
    its error bodies and maps a fixed set of codes to the framework's
    "object does not exist" and "permission denied" errors. */
module Errors {
  import opened Wrappers
  import opened GoStrings
  import opened Service

  /** The field marker searched for; a code is searched for as this marker
      followed by the code's digits. */
  const CodeField: string := "\"code\": "

  /** 40400001: file or directory not found. */
  const NotFoundCode: string := "40400001"

  /** 40100017: user needs permission; 40100019: account forbidden;
      40300011: no permission to delete. */
  const PermissionCodes: set<string> := {"40100017", "40100019", "40300011"}

  /** The outcome of the package-level `formatError`. `NotExist` and
      `PermissionDenied` stand for the framework's sentinel errors wrapped
      together with the original message; `Unchanged` is the original error
      returned as it is. Each carries the original message. */
  datatype Classified =
    | Unchanged(cause: string)
    | NotExist(cause: string)
    | PermissionDenied(cause: string)

  /** Does the message carry the code field with this code? */
  predicate HasCode(msg: string, code: string) {
    Contains(msg, CodeField + code)
  }

  /** Any message that carries a code also carries the bare code field. */
  lemma CodeImpliesField(msg: string)
    ensures forall code :: HasCode(msg, code) ==> Contains(msg, CodeField)
  {
    forall code | HasCode(msg, code) ensures Contains(msg, CodeField) {
      ContainsFront(msg, CodeField, code);
    }
  }

  /** `formatError`: without a code field, a message mentioning "404" means
      "not exist" and anything else is returned unchanged; with one, the
      not-found code wins, then the three permission codes, and any other
      code is returned unchanged. All tests are substring tests. */
  function FormatError(msg: string): (r: Classified)
    ensures r.cause == msg
    ensures r.NotExist? <==>
      HasCode(msg, NotFoundCode) || (!Contains(msg, CodeField) && Contains(msg, "404"))
    ensures r.PermissionDenied? <==>
      !HasCode(msg, NotFoundCode) && exists code :: code in PermissionCodes && HasCode(msg, code)
    ensures r.Unchanged? <==>
      if Contains(msg, CodeField) then
        !HasCode(msg, NotFoundCode) && forall code :: code in PermissionCodes ==> !HasCode(msg, code)
      else
        !Contains(msg, "404")
  {
    CodeImpliesField(msg);
    if !Contains(msg, CodeField) then
      if Contains(msg, "404") then NotExist(msg) else Unchanged(msg)
    else if HasCode(msg, "40400001") then
      NotExist(msg)
    else if HasCode(msg, "40100017") || HasCode(msg, "40100019") || HasCode(msg, "40300011") then
      PermissionDenied(msg)
    else
      Unchanged(msg)
  }

  /** The not-found code is checked before the permission codes: a message
      carrying both is classified as "not exist". */
  lemma NotFoundBeforePermission(before: string, middle: string, after: string, code: string)
    requires code in PermissionCodes
    ensures FormatError(before + CodeField + NotFoundCode + middle + CodeField + code + after).NotExist?
  {
    var msg := before + CodeField + NotFoundCode + middle + CodeField + code + after;
    assert msg == before + (CodeField + NotFoundCode) + (middle + CodeField + code + after);
    ContainsPiece(before, CodeField + NotFoundCode, middle + CodeField + code + after);
  }

  /** A message whose body carries a permission code, and not the not-found
      code, is classified as "permission denied". */
  lemma PermissionCodeDenies(before: string, code: string, after: string)
    requires code in PermissionCodes
    requires !HasCode(before + CodeField + code + after, NotFoundCode)
    ensures FormatError(before + CodeField + code + after) ==
      PermissionDenied(before + CodeField + code + after)
  {
    var msg := before + CodeField + code + after;
    assert msg == before + (CodeField + code) + after;
    ContainsPiece(before, CodeField + code, after);
  }

  /** Once a code field is present the "404" rule no longer applies: a body
      with an unknown code is returned unchanged even when its text holds
      "404". */
  lemma CodeFieldDisables404(msg: string)
    requires Contains(msg, CodeField) && Contains(msg, "404")
    requires !HasCode(msg, NotFoundCode)
    requires forall code :: code in PermissionCodes ==> !HasCode(msg, code)
    ensures FormatError(msg) == Unchanged(msg)
  {
  }

  /** What `(*Storage).formatError` returns: the operation, the classified
      error, the handle and the paths involved. */
  datatype StorageError = StorageError(op: string, err: Classified, storager: Storage, path: seq<string>)

  /** `(*Storage).formatError`: no error stays no error; an error is
      classified and annotated with the operation, the handle and the paths. */
  function WrapError(s: Storage, op: string, err: Option<string>, path: seq<string>): (r: Option<StorageError>)
    ensures r.None? <==> err.None?
    ensures r.Some? ==> r.value.op == op && r.value.storager == s && r.value.path == path
    ensures r.Some? ==> r.value.err.cause == err.value
    ensures r.Some? ==> r.value.err == FormatError(err.value)
  {
    match err
    case None => None
    case Some(msg) => Some(StorageError(op, FormatError(msg), s, path))
  }
}
