/** The Google Translate text-to-speech URI that several scripts build with
    `'https://translate.google.com/translate_tts?' 'ie=UTF-8&client=tw-ob&tl={}&q={}'.format(lang, text)`.
    `str.format` inserts both values verbatim: nothing is URL-encoded. */
module GoogleTts {
  import opened Text

  const Endpoint: string := "https://translate.google.com/translate_tts?"

  /** Everything before the text: endpoint, fixed parameters, language. */
  function Prefix(lang: string): string
  {
    Endpoint + "ie=UTF-8&client=tw-ob&tl=" + lang + "&q="
  }

  /** The request URI for `text` spoken in language `lang`. */
  function Uri(lang: string, text: string): (u: string)
    ensures |u| == |Prefix(lang)| + |text|
    ensures Endpoint <= u
  {
    Prefix(lang) + text
  }

  /** The text is the tail of the URI, unchanged, so it can be read back. */
  lemma UriText(lang: string, text: string)
    ensures Uri(lang, text)[..|Prefix(lang)|] == Prefix(lang)
    ensures Uri(lang, text)[|Prefix(lang)|..] == text
  {
  }

  /** The prefix the scripts use: Australian English. */
  lemma PrefixEnAu()
    ensures Prefix("en-au") == Endpoint + "ie=UTF-8&client=tw-ob&tl=en-au&q="
  {
    assert "ie=UTF-8&client=tw-ob&tl=" + "en-au" + "&q=" == "ie=UTF-8&client=tw-ob&tl=en-au&q=";
  }

  /** For one language, different texts never give the same URI. */
  lemma UriInjective(lang: string, t1: string, t2: string)
    requires Uri(lang, t1) == Uri(lang, t2)
    ensures t1 == t2
  {
    UriText(lang, t1);
    UriText(lang, t2);
  }
}
