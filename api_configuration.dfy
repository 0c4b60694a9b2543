/**
 * The API-key panel of the electoral module
 * (src/components/electoral/ApiConfiguration.tsx): how a stored key is masked
 * for display, and the panel's `saved` flag.
 *
 * Strings are sequences of characters; the source's `length` and `substring`
 * count UTF-16 code units, which coincide with characters for the ASCII keys
 * the panel holds.
 */
module ApiConfiguration {

  /** `ApiConfig` (src/types/electoral.ts). */
  datatype ApiConfig = ApiConfig(geminiApiKey: string, sellerChatApiKey: string, n8nWebhookUrl: string)

  /** Shown under a key field while no key is configured. */
  const Placeholder := "Se proporcionará al finalizar el desarrollo"

  /** `'*'.repeat(n)`. */
  function Stars(n: nat): (r: string)
    ensures |r| == n
    ensures forall i :: 0 <= i < n ==> r[i] == '*'
  {
    if n == 0 then "" else Stars(n - 1) + "*"
  }

  /**
   * `maskKey`: the empty key stays empty, a key of at most 8 characters
   * becomes all stars, and a longer key keeps its first and last 4 characters
   * with stars in between. Every shown character is the key's own character
   * at that position, and at most 8 are shown.
   */
  function MaskKey(key: string): (r: string)
    ensures |r| == |key|
    ensures forall i :: 0 <= i < |r| ==> r[i] == '*' || r[i] == key[i]
    ensures |key| <= 8 ==> forall i :: 0 <= i < |r| ==> r[i] == '*'
    ensures |key| > 8 ==> forall i :: 0 <= i < |r| ==> if i < 4 || |key| - 4 <= i then r[i] == key[i] else r[i] == '*'
  {
    if key == "" then ""
    else if |key| <= 8 then Stars(|key|)
    else key[..4] + Stars(|key| - 8) + key[|key| - 4..]
  }

  /** Masking a masked key changes nothing. */
  lemma {:induction false} MaskKeyIdempotent(key: string)
    ensures MaskKey(MaskKey(key)) == MaskKey(key)
  {
    var m := MaskKey(key);
    var mm := MaskKey(m);
    assert |mm| == |m|;
    forall i | 0 <= i < |m|
      ensures mm[i] == m[i]
    {
      if |key| > 8 {
        if i < 4 || |key| - 4 <= i {
          assert m[i] == key[i];
        } else {
          assert m[i] == '*';
        }
      }
    }
  }

  /** The text under a key field: the masked key when one is set, else the placeholder. */
  function KeyStatus(key: string): (text: string)
    ensures key == "" ==> text == Placeholder
    ensures key != "" ==> text == "Configurada: " + MaskKey(key)
  {
    if key != "" then "Configurada: " + MaskKey(key) else Placeholder
  }

  /** A set key is never shown as the placeholder, and the shown text never holds the key's middle. */
  lemma KeyStatusHidesMiddle(key: string, i: nat)
    requires |key| > 8 && 4 <= i < |key| - 4
    ensures KeyStatus(key) != Placeholder
    ensures KeyStatus(key)[|"Configurada: "| + i] == '*'
  {
    assert KeyStatus(key)[0] == 'C' && Placeholder[0] == 'S';
  }

  /** The text under the webhook field: whether a URL is set, never any part of it. */
  function UrlStatus(url: string): (text: string)
    ensures url == "" ==> text == Placeholder
    ensures url != "" ==> text == "Configurada"
  {
    if url != "" then "Configurada" else Placeholder
  }

  /** Any two set URLs read the same, and a set URL never reads as the placeholder. */
  lemma UrlStatusRevealsNothing(a: string, b: string)
    requires a != "" && b != ""
    ensures UrlStatus(a) == UrlStatus(b) != UrlStatus("")
  {
    assert UrlStatus(a)[0] == 'C' && Placeholder[0] == 'S';
  }

  /** The panel's state: the configuration, the show-keys toggle and the `saved` flag. */
  class ApiConfigurationPanel {
    var config: ApiConfig
    var showKeys: bool
    var saved: bool

    constructor ()
      ensures config == ApiConfig("", "", "")
      ensures !showKeys && !saved
    {
      config := ApiConfig("", "", "");
      showKeys := false;
      saved := false;
    }

    /** `handleSave`: hands the current configuration to the callback, then raises `saved`. */
    method HandleSave() returns (passed: ApiConfig)
      modifies this`saved
      ensures passed == config
      ensures saved
    {
      passed := config;
      saved := true;
    }

    /** The timer `handleSave` schedules lowers `saved` again. */
    method SavedTimerElapsed()
      modifies this`saved
      ensures !saved
    {
      saved := false;
    }

    /** The eye button flips whether keys are shown in clear. */
    method ToggleShowKeys()
      modifies this`showKeys
      ensures showKeys == !old(showKeys)
    {
      showKeys := !showKeys;
    }

    /** The three input handlers each replace one field of the configuration. */
    method SetGeminiApiKey(value: string)
      modifies this`config
      ensures config == old(config).(geminiApiKey := value)
    {
      config := config.(geminiApiKey := value);
    }

    method SetSellerChatApiKey(value: string)
      modifies this`config
      ensures config == old(config).(sellerChatApiKey := value)
    {
      config := config.(sellerChatApiKey := value);
    }

    method SetN8nWebhookUrl(value: string)
      modifies this`config
      ensures config == old(config).(n8nWebhookUrl := value)
    {
      config := config.(n8nWebhookUrl := value);
    }
  }
}
