/** The parts of `net/http` and `strings` that the handlers' decisions depend on. */
module Http {

  const StatusOK := 200
  const StatusCreated := 201
  const StatusNoContent := 204
  const StatusBadRequest := 400
  const StatusUnauthorized := 401
  const StatusNotFound := 404
  const StatusMethodNotAllowed := 405
  const StatusInternalServerError := 500

  /** `strings.TrimPrefix`: drops `prefix` from the front of `s` when it is there. */
  function TrimPrefix(s: string, prefix: string): (r: string)
    ensures prefix <= s ==> prefix + r == s
    ensures !(prefix <= s) ==> r == s
  {
    if prefix <= s then s[|prefix|..] else s
  }

  /**
   * A placeholder for the text of the database's duplicate-primary-key error, which
   * the handlers pass on as the body of their 500; the driver's actual wording, which
   * names the key value, is not modelled.
   */
  const DuplicateKeyText := "<duplicate primary key>"
}
