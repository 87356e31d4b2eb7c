/**
 * init and the POST /initialization route of umpack.js: the default user's
 * password is reported in the result only when one was produced.
 */
module Initialization {
  import opened Wrappers
  import opened Http

  /** The password object User.initAndSaveDefaultUser resolves with; only its plain text is read here. */
  datatype Password = Password(original: string)

  /** init's join callback: a falsy password is passed on as it is, otherwise its plain text. */
  function InitPasswordText(password: Option<Password>): (passwordText: Option<string>)
    ensures passwordText.None? <==> password.None?
    ensures password.Some? ==> passwordText == Some(password.value.original)
  {
    if password.None? then None else Some(password.value.original)
  }

  /** A field of the JSON result object. */
  datatype Field = Flag(b: bool) | Text(s: string)

  /**
   * The /initialization result object: `success: true`, plus `password`
   * exactly when init produced a password with a non-empty plain text.
   */
  method InitializationResult(password: Option<Password>) returns (result: map<string, Field>)
    ensures "success" in result && result["success"] == Flag(true)
    ensures "password" in result <==> password.Some? && password.value.original != ""
    ensures "password" in result ==> result["password"] == Text(password.value.original)
    ensures result.Keys <= {"success", "password"}
  {
    var passwordText := InitPasswordText(password);
    result := map["success" := Flag(true)];
    if Truthy(passwordText) {
      result := result["password" := Text(passwordText.value)];
    }
  }
}
