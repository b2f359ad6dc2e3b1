/**
 * The WhatsApp connection card: a `loading` flag around the QR-code request,
 * the choice of image string from the webhook's answer, and the
 * connected/disconnected switch.
 */
module WhatsApp {
  import opened Collections
  import opened JsText
  import opened Json

  const DataUrlPrefix: string := "data:image/png;base64,"

  /**
   * The new `qrCode` chosen from the parsed answer `data`, or None when the
   * card keeps the one it has: `data.qrcode` verbatim, else a prefixed
   * `data.base64`, else a bare string, prefixed unless it is a data URL
   * already. Reading a property of `null` throws, which also keeps `qrCode`.
   */
  function QrFromResponse(data: Value): (r: Option<Value>)
    ensures data.Null? ==> r.None?
    ensures data.Str? ==> r.Some? && r.value.Str?
    ensures r.Some? ==> Truthy(r.value) || data.Str?
  {
    match data
    case Null => None
    case Str(s) => Some(Str(if StartsWith(s, "data:") then s else DataUrlPrefix + s))
    case Obj(_) =>
      if Truthy(Get(data, "qrcode")) then Some(Get(data, "qrcode"))
      else if Truthy(Get(data, "base64")) then Some(Str(DataUrlPrefix + Coerce(Get(data, "base64"))))
      else None
  }

  /**
   * A truthy `qrcode` is taken as it is; otherwise every image the card takes
   * is a string that starts with `data:`, and a bare string that already does
   * is kept unchanged. An answer of none of the three shapes changes nothing.
   */
  lemma QrFromResponseSpec(data: Value)
    ensures Truthy(Get(data, "qrcode")) ==> QrFromResponse(data) == Some(Get(data, "qrcode"))
    ensures !Truthy(Get(data, "qrcode")) && QrFromResponse(data).Some? ==>
              QrFromResponse(data).value.Str? && StartsWith(QrFromResponse(data).value.s, "data:")
    ensures !Truthy(Get(data, "qrcode")) && Truthy(Get(data, "base64")) ==>
              QrFromResponse(data) == Some(Str(DataUrlPrefix + Coerce(Get(data, "base64"))))
    ensures data.Str? && StartsWith(data.s, "data:") ==> QrFromResponse(data) == Some(data)
    ensures data.Str? && !StartsWith(data.s, "data:") ==> QrFromResponse(data) == Some(Str(DataUrlPrefix + data.s))
    ensures QrFromResponse(data).None? <==>
              data.Null? || (data.Obj? && !Truthy(Get(data, "qrcode")) && !Truthy(Get(data, "base64")))
  {
    assert StartsWith(DataUrlPrefix, "data:");
    if data.Obj? && !Truthy(Get(data, "qrcode")) && Truthy(Get(data, "base64")) {
      assert (DataUrlPrefix + Coerce(Get(data, "base64")))[..5] == DataUrlPrefix[..5];
    }
    if data.Str? && !StartsWith(data.s, "data:") {
      assert (DataUrlPrefix + data.s)[..5] == DataUrlPrefix[..5];
    }
  }

  datatype Status = Connected | Disconnected

  class ConnectionCard {
    var status: Status
    /** The current image string; Null while there is none. */
    var qrCode: Value
    var loading: bool

    constructor ()
      ensures status == Disconnected && qrCode == Null && !loading
    {
      status := Disconnected;
      qrCode := Null;
      loading := false;
    }

    /** The start of `handleGenerateQR`: the request is running. */
    method BeginGenerate()
      modifies this
      ensures loading
      ensures status == old(status) && qrCode == old(qrCode)
    {
      loading := true;
    }

    /**
     * The end of `handleGenerateQR`, on success or failure (`None`: the
     * request or its JSON decoding threw): the image is chosen, and loading ends.
     */
    method FinishGenerate(response: Option<Value>)
      modifies this
      ensures !loading
      ensures status == old(status)
      ensures response.None? ==> qrCode == old(qrCode)
      ensures response.Some? && QrFromResponse(response.value).None? ==> qrCode == old(qrCode)
      ensures response.Some? && QrFromResponse(response.value).Some? ==>
                qrCode == QrFromResponse(response.value).value
    {
      if response.Some? {
        var chosen := QrFromResponse(response.value);
        if chosen.Some? {
          qrCode := chosen.value;
        }
      }
      loading := false;
    }

    /** The connection button flips between connected and disconnected. */
    method ToggleStatus()
      modifies this
      ensures status == if old(status) == Connected then Disconnected else Connected
      ensures qrCode == old(qrCode) && loading == old(loading)
    {
      status := if status == Connected then Disconnected else Connected;
    }
  }
}
