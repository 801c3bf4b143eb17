/** The model names the bot accepts: a case-insensitive membership test. */
module Models {
  import opened Text

  const TEXT_COMP_MODELS: seq<string> := ["gpt3", "gpt4", "alpaca_7b", "falcon_40b"]
  const IMAGE_GEN_MODELS: seq<string> := ["prodia", "pollinations"]

  /** `model.lower() in textCompModels` (`/ask`, `/setup-chatbot`). */
  predicate IsTextCompModel(name: string) {
    Lower(name) in TEXT_COMP_MODELS
  }

  /** `model.lower() in imageGenModels` (`/imagine`). */
  predicate IsImageGenModel(name: string) {
    Lower(name) in IMAGE_GEN_MODELS
  }

  lemma {:induction false} LowerIsIdempotent(s: string)
    ensures Lower(Lower(s)) == Lower(s)
  {
    var l := Lower(s);
    assert forall i :: 0 <= i < |s| ==> Lower(l)[i] == LowerChar(l[i]) == l[i];
  }

  /** Validation ignores case: a name and its lowercase form are accepted alike. */
  lemma ValidationIgnoresCase(name: string)
    ensures IsTextCompModel(name) == IsTextCompModel(Lower(name))
    ensures IsImageGenModel(name) == IsImageGenModel(Lower(name))
  {
    LowerIsIdempotent(name);
  }

  lemma LowerGpt4()
    ensures Lower("GPT4") == "gpt4"
  {
    var g := Lower("GPT4");
    assert g[0] == 'g' && g[1] == 'p' && g[2] == 't' && g[3] == '4';
  }

  lemma LowerGpt3()
    ensures Lower("Gpt3") == "gpt3"
  {
    var g := Lower("Gpt3");
    assert g[0] == 'g' && g[1] == 'p' && g[2] == 't' && g[3] == '3';
  }

  /** Mixed-case spellings of listed names pass. */
  lemma AcceptsMixedCase()
    ensures IsTextCompModel("GPT4") && IsTextCompModel("Gpt3")
  {
    LowerGpt4();
    LowerGpt3();
    assert TEXT_COMP_MODELS[0] == "gpt3" && TEXT_COMP_MODELS[1] == "gpt4";
  }

  /** A name with no upper-case letter is its own lowercase form. */
  lemma LowercaseIsFixed(s: string)
    requires forall i :: 0 <= i < |s| ==> !('A' <= s[i] <= 'Z')
    ensures Lower(s) == s
  {
    assert forall i :: 0 <= i < |s| ==> Lower(s)[i] == s[i];
  }

  /** Every listed name is accepted as written. */
  lemma AcceptsListed()
    ensures forall n :: n in TEXT_COMP_MODELS ==> IsTextCompModel(n)
    ensures forall n :: n in IMAGE_GEN_MODELS ==> IsImageGenModel(n)
  {
    forall i | 0 <= i < |TEXT_COMP_MODELS|
      ensures Lower(TEXT_COMP_MODELS[i]) == TEXT_COMP_MODELS[i]
    {
      LowercaseIsFixed(TEXT_COMP_MODELS[i]);
    }
    forall i | 0 <= i < |IMAGE_GEN_MODELS|
      ensures Lower(IMAGE_GEN_MODELS[i]) == IMAGE_GEN_MODELS[i]
    {
      LowercaseIsFixed(IMAGE_GEN_MODELS[i]);
    }
  }

  /** A near-miss and an image-generation model are refused as text models. */
  lemma RejectsUnlisted()
    ensures !IsTextCompModel("gpt-4") && !IsTextCompModel("prodia")
  {
    assert |Lower("gpt-4")| == 5 && |Lower("prodia")| == 6;
  }
}
