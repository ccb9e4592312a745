/** How a Gmail status is read (gmail_client.py). */
module Gmail {

  datatype ErrorClass = AuthError | RetryableError | PermanentError

  function Classify(status: int): ErrorClass {
    if status == 401 then AuthError
    else if status == 429 || status >= 500 then RetryableError
    else if status == 403 then RetryableError
    else if status in {400, 404, 409, 410, 412, 413, 422} then PermanentError
    else RetryableError
  }

  /** Payload too large: the one status that can only be about the message. */
  const PER_MESSAGE_STATUS := 413
}
