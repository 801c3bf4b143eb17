/**
  How a reply reaches the channel: inline when it fits in a Discord
  message, otherwise as a UTF-8 text file named `message.txt`.
 */
module Delivery {
  import opened Wrappers
  import Utf8

  const MESSAGE_LIMIT := 2000
  const ATTACHMENT_NAME := "message.txt"

  datatype Delivery =
    | Inline(text: string)
    | File(filename: string, body: seq<Utf8.Byte>)

  /** The delivery rule shared by chat replies and `/ask`. */
  function Deliver(text: string): (d: Delivery)
    ensures d.Inline? <==> |text| <= MESSAGE_LIMIT
    ensures d.File? ==> d.filename == ATTACHMENT_NAME
  {
    if |text| <= MESSAGE_LIMIT then Inline(text) else File(ATTACHMENT_NAME, Utf8.Encode(text))
  }

  /** What a reader of the delivered message or file sees, if the file decodes. */
  function Received(d: Delivery): Option<string> {
    match d
    case Inline(text) => Some(text)
    case File(_, body) => Utf8.Decode(body)
  }

  /** Neither mode loses or alters a character of the reply. */
  lemma DeliveryIsLossless(text: string)
    ensures Received(Deliver(text)) == Some(text)
  {
    if |text| > MESSAGE_LIMIT {
      Utf8.DecodeEncode(text);
    }
  }

  /** Exactly 2000 characters still go inline; 2001 go as a file. */
  lemma DeliveryBoundary(a: string, b: string)
    requires |a| == 2000 && |b| == 2001
    ensures Deliver(a) == Inline(a)
    ensures Deliver(b) == File("message.txt", Utf8.Encode(b))
  {
  }
}
