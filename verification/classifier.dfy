/** The two questions the handler asks of a decoded message object (server.py:38, 44). */
module Classifier {
  import opened Wrappers
  import opened Json

  /**
   * `data.get("role") == "admin"`: Python's `==` between a decoded JSON value
   * and the string "admin" holds only for that very string.
   */
  function IsAdmin(fields: map<string, Json>): (b: bool)
    ensures b <==> "role" in fields && fields["role"].JStr? && fields["role"].s == "admin"
  {
    "role" in fields && fields["role"] == JStr("admin")
  }

  /**
   * The store key `data.get("phone_number", "unknown_user")` as it ends up in
   * the saved file, or None when that value cannot be a dictionary key.
   */
  function UserKey(fields: map<string, Json>): (r: Option<string>)
    ensures "phone_number" !in fields ==> r == Some("unknown_user")
    ensures "phone_number" in fields && fields["phone_number"].JStr? ==> r == Some(fields["phone_number"].s)
    ensures r.None? <==> "phone_number" in fields && (fields["phone_number"].JArr? || fields["phone_number"].JObj?)
    ensures "phone_number" in fields && fields["phone_number"].JNum? ==> r.Some? && IsNumeral(r.value)
  {
    if "phone_number" in fields then KeyText(fields["phone_number"]) else Some("unknown_user")
  }

  /**
   * A numeric phone number and the same digits sent as a string address the
   * same record, and two different numbers never share one.
   */
  lemma NumericKeys(a: int, b: int)
    ensures UserKey(map["phone_number" := JNum(a)]) == UserKey(map["phone_number" := JStr(IntText(a))])
    ensures a != b ==> UserKey(map["phone_number" := JNum(a)]) != UserKey(map["phone_number" := JNum(b)])
  {
    if a != b && IntText(a) == IntText(b) {
      IntTextInjective(a, b);
    }
  }
}
