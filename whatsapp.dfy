/**
 * The WhatsApp Cloud API side of api.py: its configuration and the guard in
 * front of the outbound send (`enviar_mensaje_whatsapp`).
 */
module WhatsApp {

  /** The environment-sourced WhatsApp settings. */
  datatype Config = Config(token: string, verifyToken: string, phoneId: string)

  /** The one HTTP POST made for a send: endpoint, bearer header, recipient and text. */
  datatype SendRequest = SendRequest(url: string, authorization: string, to: string, text: string)

  /** What a send call did: refuse for missing configuration, or post the request. */
  datatype Attempt = ConfigMissing(error: string) | Posted(request: SendRequest)

  /** One call of the send function and what it did. */
  datatype Delivery = Delivery(to: string, text: string, attempt: Attempt)

  const MissingConfigError := "Configuración WhatsApp faltante en variables de entorno."

  function MessagesEndpoint(phoneId: string): string
  {
    "https://graph.facebook.com/v19.0/" + phoneId + "/messages"
  }

  /**
   * The configuration guard and the request of a send: with an empty token or
   * phone id nothing is posted; otherwise one text message to `to` is posted.
   */
  function Send(cfg: Config, to: string, message: string): (a: Attempt)
    ensures a.ConfigMissing? <==> cfg.token == "" || cfg.phoneId == ""
    ensures a.ConfigMissing? ==> a.error == MissingConfigError
    ensures a.Posted? ==>
      && a.request.to == to
      && a.request.text == message
      && a.request.authorization == "Bearer " + cfg.token
      && a.request.url == MessagesEndpoint(cfg.phoneId)
  {
    if cfg.token == "" || cfg.phoneId == "" then
      ConfigMissing(MissingConfigError)
    else
      Posted(SendRequest(MessagesEndpoint(cfg.phoneId), "Bearer " + cfg.token, to, message))
  }
}
