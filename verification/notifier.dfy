/** The confirmation email sent after an approval. It is best effort: the
    lookup may find nothing, and a failed send is swallowed. */
module Notifier {
  import opened Options
  import opened Reservations

  const ClienteAddress: string := "cliente@ejemplo.com"
  const TalentoAddress: string := "talento@ejemplo.com"
  const Subject: string := "Confirmación de Servicio - Talento Local"

  /** One message to two fixed placeholder addresses (not the
      reservation's own client or talent); its text names the service date
      and time of the reservation found. */
  datatype Mail = Mail(to: seq<string>, subject: string, fechaServicio: Option<string>, horaServicio: Option<string>)

  /** What happened to the confirmation: never tried, or handed to the mail
      transport, which either delivered it or failed. */
  datatype Dispatch = NotAttempted | Attempted(mail: Mail, delivered: bool)

  /** How the text interpolates a column that may be null. */
  function RenderColumn(v: Option<string>): string
  {
    match v
    case Some(s) => s
    case None => "null"
  }

  const Greeting: string := "Hola,\n\nTu servicio ha sido confirmado con éxito.\nFecha: "
  const HourLabel: string := "\nHora: "
  const Closing: string := "\n\n¡Gracias por usar Talento Local!"

  /** The message body: the greeting, then the service date, then the hour
      label, then the service time, then the closing, each at a fixed place. */
  function MailText(m: Mail): (text: string)
    ensures var f := RenderColumn(m.fechaServicio);
            var h := RenderColumn(m.horaServicio);
            && |text| == |Greeting| + |f| + |HourLabel| + |h| + |Closing|
            && text[..|Greeting|] == Greeting
            && text[|Greeting|..|Greeting| + |f|] == f
            && text[|Greeting| + |f|..|Greeting| + |f| + |HourLabel|] == HourLabel
            && text[|Greeting| + |f| + |HourLabel|..|Greeting| + |f| + |HourLabel| + |h|] == h
            && text[|text| - |Closing|..] == Closing
  {
    Greeting + RenderColumn(m.fechaServicio) + HourLabel + RenderColumn(m.horaServicio) + Closing
  }

  /** Sends the confirmation for a payment id. The mail is attempted exactly
      when the lookup returns the single matching reservation; it is then
      addressed to the two fixed placeholder addresses, carries that
      reservation's date and time, and is delivered iff the transport
      succeeds. */
  function SendConfirmation(t: Table, id: PaymentId, lookupOk: bool, sendOk: bool): (d: Dispatch)
    ensures d.Attempted? <==> lookupOk && exists i :: UniqueMatch(t, id, i)
    ensures d.Attempted? ==> d.mail.to == [ClienteAddress, TalentoAddress] && d.mail.subject == Subject
    ensures d.Attempted? ==> d.delivered == sendOk
    ensures forall i :: d.Attempted? && UniqueMatch(t, id, i) ==>
              d.mail.fechaServicio == t[i].fechaServicio && d.mail.horaServicio == t[i].horaServicio
  {
    match FindByPaymentId(t, id, lookupOk)
    case None => NotAttempted
    case Some(reserva) =>
      Attempted(Mail([ClienteAddress, TalentoAddress], Subject, reserva.fechaServicio, reserva.horaServicio), sendOk)
  }
}
