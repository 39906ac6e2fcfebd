/**
 * The browser's `localStorage`, reduced to the single key the client uses,
 * `'token'`. One object is shared by the login form, which writes it, and
 * the signed-in scan screen, which reads it.
 */
module Storage {
  import opened Wrappers

  class LocalStorage {
    /** `localStorage.getItem('token')`: `None` stands for `null`. */
    var token: Option<string>

    constructor (token: Option<string>)
      ensures this.token == token
    {
      this.token := token;
    }
  }
}
