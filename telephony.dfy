/** The SMS and WhatsApp delivery gateway (src/integrations/telephony.py).
    The provider client itself is outside the model: only the decision to
    send, the address normalisation and the result are modelled. */
module Telephony {
  import opened Text

  /** The gateway's configuration: the provider phone number from the
      environment (unset or empty means not configured) and whether a provider
      client was created when the module was loaded. */
  datatype Config = Config(phoneNumber: Option<string>, hasClient: bool)

  /** The configuration as loaded. The client creation is commented out in
      the module's initialisation, so no client exists whatever the
      credentials are. */
  function LoadedConfig(phoneNumber: Option<string>, accountSid: Option<string>, authToken: Option<string>): Config
  {
    Config(phoneNumber, false)
  }

  /** Python's truthiness of the configured phone number and the client. */
  predicate Configured(c: Config)
  {
    c.phoneNumber.Some? && c.phoneNumber.value != "" && c.hasClient
  }

  const WhatsappPrefix := "whatsapp:"

  /** The WhatsApp address: the prefix is added only when it is missing. */
  function NormalizeWhatsapp(to: string): (r: string)
    ensures StartsWith(r, WhatsappPrefix)
    ensures StartsWith(to, WhatsappPrefix) ==> r == to
    ensures !StartsWith(to, WhatsappPrefix) ==> r == WhatsappPrefix + to
  {
    if StartsWith(to, WhatsappPrefix) then to
    else
      StartsWithConcat(WhatsappPrefix, to);
      WhatsappPrefix + to
  }

  /** Normalising twice is normalising once. */
  lemma NormalizeIdempotent(to: string)
    ensures NormalizeWhatsapp(NormalizeWhatsapp(to)) == NormalizeWhatsapp(to)
  {
  }

  datatype Channel = Sms | Whatsapp

  /** One call into the gateway: channel, destination as the provider sees
      it, message body and the boolean the call returned. */
  datatype Delivery = Delivery(channel: Channel, to: string, body: string, sent: bool)

  /** `send_sms`: reports success exactly when the gateway is configured and
      the provider accepts the message (`providerError` stands for an
      exception from the provider, which is reported as failure). */
  function SendSms(c: Config, toNumber: string, messageBody: string, providerError: bool): (d: Delivery)
    ensures d.channel == Sms && d.to == toNumber && d.body == messageBody
    ensures d.sent <==> Configured(c) && !providerError
  {
    if !(c.phoneNumber.Some? && c.phoneNumber.value != "") || !c.hasClient then Delivery(Sms, toNumber, messageBody, false)
    else if providerError then Delivery(Sms, toNumber, messageBody, false)
    else Delivery(Sms, toNumber, messageBody, true)
  }

  /** `send_whatsapp_message`: the destination is normalised first; success
      exactly when the gateway's WhatsApp number exists, a client exists and
      the provider accepts the message. */
  function SendWhatsappMessage(c: Config, toNumber: string, messageBody: string, providerError: bool): (d: Delivery)
    ensures d.channel == Whatsapp && d.to == NormalizeWhatsapp(toNumber) && d.body == messageBody
    ensures StartsWith(d.to, WhatsappPrefix)
    ensures d.sent <==> Configured(c) && !providerError
  {
    var to := NormalizeWhatsapp(toNumber);
    var whatsappNumber := if c.phoneNumber.Some? && c.phoneNumber.value != "" then Some(WhatsappPrefix + c.phoneNumber.value) else None;
    if whatsappNumber.None? || !c.hasClient then Delivery(Whatsapp, to, messageBody, false)
    else if providerError then Delivery(Whatsapp, to, messageBody, false)
    else Delivery(Whatsapp, to, messageBody, true)
  }

  /** With the configuration as loaded, no message is ever reported as sent,
      whatever the environment provides. */
  lemma NothingSentAsLoaded(phoneNumber: Option<string>, accountSid: Option<string>, authToken: Option<string>,
                            toNumber: string, messageBody: string, providerError: bool)
    ensures !SendSms(LoadedConfig(phoneNumber, accountSid, authToken), toNumber, messageBody, providerError).sent
    ensures !SendWhatsappMessage(LoadedConfig(phoneNumber, accountSid, authToken), toNumber, messageBody, providerError).sent
  {
  }
}
