/** The settings a gateway client is constructed with. */
module ClientConfig {

  /**
   * The client's settings: merchant id, sandbox environment, the ZarinGate
   * portal flag and its PSP selector, the message language and whether the
   * redirect goes through the Laravel helper. The HTTP client is not part of
   * the record: every operation takes the transport as an argument.
   */
  datatype Config = Config(
    merchantId: string,
    sandbox: bool,
    zaringate: bool,
    zaringatePsp: string,
    lang: string,
    laravel: bool)

  /** The constructor called with only a merchant id: every other setting takes its default. */
  function NewConfig(merchantId: string): (c: Config)
    ensures c.merchantId == merchantId
    ensures !c.sandbox && !c.zaringate && c.zaringatePsp == ""
    ensures c.lang == "fa" && c.laravel
  {
    Config(merchantId, false, false, "", "fa", true)
  }
}
