/** The Basic-Auth gate in front of every endpoint (service/middleware.go):
    a decision on the configured credentials and those the request presents. */
module Middleware {

  const StatusUnauthorized: int := 401
  const LoginRequiredMsg: string := "Login Required"

  /** What the request's Authorization header yields. */
  datatype Presented = NoCredentials | BasicAuth(user: string, pass: string)

  /** Hand the request to the wrapped handler, or answer it with an error. */
  datatype Verdict = PassThrough | Reject(code: int, msg: string)

  /** An empty configured password disables the check; a request without
      Basic-Auth credentials is let through; credentials that differ in the
      user or the password are rejected with 401. */
  function BasicAuthHandler(username: string, password: string, presented: Presented): (v: Verdict)
    ensures v == PassThrough || v == Reject(StatusUnauthorized, LoginRequiredMsg)
    ensures v.Reject? <==>
      password != "" && presented.BasicAuth? && (presented.user != username || presented.pass != password)
  {
    if password != "" && presented.BasicAuth? then
      if presented.user != username || presented.pass != password then
        Reject(StatusUnauthorized, LoginRequiredMsg)
      else PassThrough
    else PassThrough
  }

  /** With a password configured, presented credentials pass exactly when
      they are the configured ones. */
  lemma OnlyConfiguredCredentialsPass(username: string, password: string, user: string, pass: string)
    requires password != ""
    ensures BasicAuthHandler(username, password, BasicAuth(user, pass)) == PassThrough
        <==> user == username && pass == password
  {
  }

  /** An empty password lets every request through, and so does a request
      without Basic-Auth credentials. */
  lemma UnauthenticatedRequestsPass(username: string, password: string, presented: Presented)
    requires password == "" || presented == NoCredentials
    ensures BasicAuthHandler(username, password, presented) == PassThrough
  {
  }

  /** The three cases of the middleware's unit test. */
  lemma TestedCases()
    ensures BasicAuthHandler("testuser", "testpass", BasicAuth("testuser", "testpass")) == PassThrough
    ensures BasicAuthHandler("wronguser", "testpass", BasicAuth("testuser", "testpass")).code == StatusUnauthorized
    ensures BasicAuthHandler("testuser", "wrongpass", BasicAuth("testuser", "testpass")).code == StatusUnauthorized
  {
  }
}
