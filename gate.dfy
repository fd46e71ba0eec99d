/**
 * The connectivity gate `checkTor`: one request to the proxy network's check
 * page, which passes only when the page carries the success marker.
 */
module Gate {
  import opened Text
  import opened Results

  const CheckUrl: string := "https://check.torproject.org/"
  const Marker: string := "Congratulations"
  const NotVerified: string := "Tor IP doğrulanamadı"

  /**
   * What the request for `CheckUrl` produced: a transport error, or the body
   * that was read (an error while reading the body is ignored, so the body is
   * whatever was read).
   */
  datatype Response = TransportError(reason: string) | Body(text: string)

  /**
   * `checkTor`: passes exactly when a body was read and the marker occurs in
   * it; a transport error is passed on unchanged.
   */
  function CheckTor(resp: Response): (r: Outcome)
    ensures r.Ok? <==> resp.Body? && Occurs(resp.text, Marker)
    ensures resp.TransportError? ==> r == Err(resp.reason)
    ensures resp.Body? && r.Err? ==> r.reason == NotVerified
  {
    match resp
    case TransportError(e) => Err(e)
    case Body(text) =>
      if Contains(text, Marker) then Ok else Err(NotVerified)
  }

  /** The marker may sit anywhere in the page. */
  lemma CheckTorFindsMarker(before: string, after: string)
    ensures CheckTor(Body(before + Marker + after)).Ok?
  {
    var text := before + Marker + after;
    assert text[|before|..|before| + |Marker|] == Marker;
    assert OccursAt(text, Marker, |before|);
  }
}
