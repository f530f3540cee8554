/**
 * The settings dialog (client/src/components/settings-modal.tsx): the masked display of an
 * API key, the per-provider "show key" flags and the form updaters, each a copy of the
 * previous state with one field replaced.
 */
module SettingsModal {
  import opened Wrappers
  import opened Strings
  import opened Schema

  /**
   * `maskKey`: nothing for a missing or empty key, only asterisks for a key of at most eight
   * characters, and otherwise the first and last four characters around asterisks.
   */
  function MaskKey(key: Option<string>): (r: string)
    ensures key.None? || key.value == [] ==> r == []
    ensures key.Some? ==> |r| == |key.value|
    ensures key.Some? && |key.value| <= 8 ==> forall i :: 0 <= i < |r| ==> r[i] == '*'
    ensures key.Some? && |key.value| > 8 ==>
      r[..4] == key.value[..4]
      && r[|r| - 4..] == key.value[|key.value| - 4..]
      && forall i :: 4 <= i < |r| - 4 ==> r[i] == '*'
  {
    if key.None? || key.value == [] then []
    else if |key.value| <= 8 then Stars(|key.value|)
    else
      var k := key.value;
      var r := k[..4] + Stars(|k| - 8) + k[|k| - 4..];
      assert r[..4] == k[..4];
      assert r[|r| - 4..] == k[|k| - 4..];
      r
  }

  /**
   * The mask shows nothing but the length and the outer four characters on each side: two
   * keys that agree on those mask to the same text.
   */
  lemma MaskKeyRevealsOnlyEnds(k1: string, k2: string)
    requires |k1| == |k2|
    requires |k1| > 8 ==> k1[..4] == k2[..4] && k1[|k1| - 4..] == k2[|k2| - 4..]
    ensures MaskKey(Some(k1)) == MaskKey(Some(k2))
  {
    var m1, m2 := MaskKey(Some(k1)), MaskKey(Some(k2));
    if |k1| > 8 {
      forall i | 0 <= i < |m1| ensures m1[i] == m2[i] {
        if i < 4 {
          assert m1[i] == m1[..4][i] && m2[i] == m2[..4][i];
        } else if i >= |m1| - 4 {
          assert m1[i] == m1[|m1| - 4..][i - (|m1| - 4)];
          assert m2[i] == m2[|m2| - 4..][i - (|m2| - 4)];
        }
      }
    }
  }

  /** The value the key input shows: the key itself when revealed, its mask otherwise. */
  function DisplayedKey(shown: bool, key: Option<string>): (r: string)
    ensures shown ==> r == key.GetOr([])
    ensures !shown ==> r == MaskKey(key)
    ensures |r| == |key.GetOr([])|
  {
    if shown then key.GetOr([]) else MaskKey(key)
  }

  /** The three "show key" flags, all false when the dialog opens. */
  datatype ShowKeys = ShowKeys(openai: bool, openrouter: bool, claude: bool)

  const Hidden := ShowKeys(false, false, false)

  function Shown(s: ShowKeys, provider: Provider): bool {
    match provider
    case OpenAI => s.openai
    case OpenRouter => s.openrouter
    case Claude => s.claude
  }

  /** `toggleKeyVisibility`: the named flag flips, the other two stay. */
  function ToggleKeyVisibility(s: ShowKeys, provider: Provider): (r: ShowKeys)
    ensures Shown(r, provider) == !Shown(s, provider)
    ensures forall p :: p != provider ==> Shown(r, p) == Shown(s, p)
  {
    match provider
    case OpenAI => s.(openai := !s.openai)
    case OpenRouter => s.(openrouter := !s.openrouter)
    case Claude => s.(claude := !s.claude)
  }

  /** Two toggles of the same flag cancel out; toggles of different flags commute. */
  lemma ToggleFacts(s: ShowKeys, p: Provider, q: Provider)
    ensures ToggleKeyVisibility(ToggleKeyVisibility(s, p), p) == s
    ensures ToggleKeyVisibility(ToggleKeyVisibility(s, p), q)
         == ToggleKeyVisibility(ToggleKeyVisibility(s, q), p)
  {
  }

  /** The provider select: only `preferredProvider` changes. */
  function SetPreferredProvider(form: ApiSettings, value: Provider): (r: ApiSettings)
    ensures r.preferredProvider == value
    ensures r.openaiKey == form.openaiKey && r.openrouterKey == form.openrouterKey && r.claudeKey == form.claudeKey
  {
    form.(preferredProvider := value)
  }

  /** A key input's `onChange`: that key becomes the typed text, the rest of the form stays. */
  function SetKey(form: ApiSettings, provider: Provider, value: string): (r: ApiSettings)
    ensures KeyOf(r, provider) == Some(value)
    ensures forall p :: p != provider ==> KeyOf(r, p) == KeyOf(form, p)
    ensures r.preferredProvider == form.preferredProvider
  {
    match provider
    case OpenAI => form.(openaiKey := Some(value))
    case OpenRouter => form.(openrouterKey := Some(value))
    case Claude => form.(claudeKey := Some(value))
  }

  function KeyOf(form: ApiSettings, provider: Provider): Option<string> {
    match provider
    case OpenAI => form.openaiKey
    case OpenRouter => form.openrouterKey
    case Claude => form.claudeKey
  }
}
