/** The constants of the client that the core uses. */
module Consts {
  /** Base URL of the REST API. */
  const API_URL: string := "https://api.bitget.com"

  const GET: string := "GET"
  const POST: string := "POST"

  /** The signature scheme the client is built with. */
  const SIGN_TYPE: string := "HmacSHA256"

  const CONTENT_TYPE: string := "application/json"
}
