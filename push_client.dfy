/**
 * `urlBase64ToUint8Array` from the browser push client: turns the server's
 * VAPID public key, written in base64url, into the byte array the push
 * manager takes. `window.atob` is a parameter: it yields the decoded binary
 * string, or None where it would throw.
 */
module PushClient {
  import opened Js
  import opened Base64Url

  type Byte = x: int | 0 <= x < 256

  /** Storing a number into a `Uint8Array` keeps it modulo 2^8. */
  function ToUint8(c: char): (b: Byte)
    ensures (c as int) < 256 ==> b == c as int
  {
    (c as int) % 256
  }

  /** The string handed to `atob`: padded to a multiple of four, then mapped to the standard alphabet. */
  function AtobInput(base64String: string): (r: string)
    ensures |r| % 4 == 0 && |base64String| <= |r| < |base64String| + 4
    ensures '-' !in r && '_' !in r
  {
    ToStandardAlphabet(Padded(base64String))
  }

  method UrlBase64ToUint8Array(base64String: string, atob: string -> Option<string>)
    returns (result: Option<array<Byte>>)
    ensures atob(AtobInput(base64String)).None? ==> result.None?
    ensures atob(AtobInput(base64String)).Some? ==>
      var rawData := atob(AtobInput(base64String)).value;
      && result.Some?
      && fresh(result.value)
      && result.value.Length == |rawData|
      && forall i :: 0 <= i < |rawData| ==> result.value[i] == ToUint8(rawData[i])
  {
    var padding := Repeat('=', PaddingLength(|base64String|));
    var base64 := ToStandardAlphabet(base64String + padding);
    var decoded := atob(base64);
    if decoded.None? {
      return None;
    }
    var rawData := decoded.value;
    var outputArray := new Byte[|rawData|];
    for i := 0 to |rawData|
      invariant forall j :: 0 <= j < i ==> outputArray[j] == ToUint8(rawData[j])
    {
      outputArray[i] := ToUint8(rawData[i]);
    }
    return Some(outputArray);
  }
}
