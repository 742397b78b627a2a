/** ShareClipboard/ShareClipboardApp.swift: the `AppDelegate` callbacks that
    publish the APNs device token, as lowercase hexadecimal text, or the
    registration error. */
module ShareDeviceToken {

  import opened Wrappers
  import opened Strings

  /** The token text: every byte formatted with `%02.2hhx`, joined in order. */
  function TokenOf(deviceToken: seq<Byte>): (token: string)
    ensures |token| == 2 * |deviceToken|
  {
    HexEncode(deviceToken, LowerHexDigits)
  }

  /** Byte `k` becomes characters `2k` and `2k+1`, its high nibble first,
      and every character is a lowercase hexadecimal digit. */
  lemma TokenLayout(deviceToken: seq<Byte>)
    ensures forall k :: 0 <= k < |deviceToken| ==>
              TokenOf(deviceToken)[2 * k] == LowerHexDigits[deviceToken[k] / 16] &&
              TokenOf(deviceToken)[2 * k + 1] == LowerHexDigits[deviceToken[k] % 16]
    ensures forall i :: 0 <= i < |TokenOf(deviceToken)| ==> IsLowerHexChar(TokenOf(deviceToken)[i])
  {
    forall k | 0 <= k < |deviceToken|
      ensures TokenOf(deviceToken)[2 * k] == LowerHexDigits[deviceToken[k] / 16]
      ensures TokenOf(deviceToken)[2 * k + 1] == LowerHexDigits[deviceToken[k] % 16]
    {
      HexEncodeAt(deviceToken, LowerHexDigits, 2 * k);
      HexEncodeAt(deviceToken, LowerHexDigits, 2 * k + 1);
    }
    forall i | 0 <= i < |TokenOf(deviceToken)|
      ensures IsLowerHexChar(TokenOf(deviceToken)[i])
    {
      HexEncodeAt(deviceToken, LowerHexDigits, i);
      assert forall d :: 0 <= d < 16 ==> IsLowerHexChar(LowerHexDigits[d]);
    }
  }

  /** The token text determines the bytes: decoding it gives them back, so
      two different device tokens never share a text. */
  lemma TokenRoundTrip(a: seq<Byte>, b: seq<Byte>)
    ensures LowerHexDecode(TokenOf(a)) == Some(a)
    ensures TokenOf(a) == TokenOf(b) ==> a == b
  {
    LowerHexRoundTrip(a);
    LowerHexRoundTrip(b);
  }

  /** What a registration failure carries; only its description is kept. */
  datatype RegistrationError = RegistrationError(description: string)

  class DeviceTokenStore {
    var deviceToken: Option<string>
    var registrationError: Option<RegistrationError>

    constructor ()
      ensures deviceToken == None && registrationError == None
    {
      deviceToken := None;
      registrationError := None;
    }
  }

  class AppDelegate {
    const deviceTokenStore: DeviceTokenStore

    constructor ()
      ensures fresh(deviceTokenStore)
      ensures deviceTokenStore.deviceToken == None && deviceTokenStore.registrationError == None
    {
      deviceTokenStore := new DeviceTokenStore();
    }

    /** `didRegisterForRemoteNotificationsWithDeviceToken`: publishes the
        token text; an earlier registration error stays as it was. */
    method DidRegister(deviceToken: seq<Byte>)
      modifies deviceTokenStore
      ensures deviceTokenStore.deviceToken == Some(TokenOf(deviceToken))
      ensures deviceTokenStore.registrationError == old(deviceTokenStore.registrationError)
    {
      deviceTokenStore.deviceToken := Some(TokenOf(deviceToken));
    }

    /** `didFailToRegisterForRemoteNotificationsWithError`: records the error
        and leaves any token published earlier untouched. */
    method DidFailToRegister(error: RegistrationError)
      modifies deviceTokenStore
      ensures deviceTokenStore.registrationError == Some(error)
      ensures deviceTokenStore.deviceToken == old(deviceTokenStore.deviceToken)
    {
      deviceTokenStore.registrationError := Some(error);
    }
  }
}
