/**
 * The mock Google Forms service (backend/services/forms_service.py). The form
 * id is derived from Python's built-in `hash` of the title, which is salted
 * per process; the hash value is therefore a parameter.
 */
module FormsService {
  import opened Wrappers
  import opened Text
  import opened Json

  const FormsBase: string := "https://docs.google.com/forms/d/"
  const IdPrefix: string := "mock_form_"

  /** The form id for a title whose hash is `titleHash`: Python's `%` by a positive modulus is never negative. */
  function FormId(titleHash: int): (id: string)
    ensures StartsWith(id, IdPrefix)
    ensures var digits := id[|IdPrefix|..];
            && AllDigits(digits) && 1 <= |digits| <= 4 && DigitsValue(digits) == titleHash % 10000
            && (|digits| == 1 || digits[0] != '0')
  {
    var digits := NatToString(titleHash % 10000);
    NatToStringLength(titleHash % 10000);
    DigitsValueOfNatToString(titleHash % 10000);
    assert (IdPrefix + digits)[|IdPrefix|..] == digits;
    IdPrefix + digits
  }

  lemma {:induction false} NatToStringLength(n: nat)
    requires n < 10000
    ensures |NatToString(n)| <= 4
  {
    if n >= 10 {
      NatToStringLength(n / 10);
      assert |NatToString(n / 10)| <= 3 by {
        NatToStringShort(n / 10);
      }
    }
  }

  lemma {:induction false} NatToStringShort(n: nat)
    requires n < 1000
    ensures |NatToString(n)| <= 3
  {
    if n >= 10 {
      assert |NatToString(n / 10)| <= 2 by {
        if n / 10 >= 10 {
          assert |NatToString(n / 100)| == 1;
        }
      }
    }
  }

  function FormUrl(id: string): string {
    FormsBase + id + "/viewform"
  }

  function EditUrl(id: string): string {
    FormsBase + id + "/edit"
  }

  /** The dict `create_quiz_form` returns. */
  datatype FormResult = FormResult(
    formId: string, title: string, formUrl: string, editUrl: string, numQuestions: nat, status: string)

  /** `create_quiz_form(title, questions)`; only the number of questions is used. */
  function CreateQuizForm(title: string, titleHash: int, questionCount: nat): (r: FormResult)
    ensures r.title == title && r.numQuestions == questionCount && r.status == "created"
    ensures r.formUrl == FormUrl(r.formId) && r.editUrl == EditUrl(r.formId)
    ensures StartsWith(r.formId, IdPrefix)
  {
    var id := FormId(titleHash);
    FormResult(id, title, FormUrl(id), EditUrl(id), questionCount, "created")
  }

  /** Reads the form id back out of a view URL. */
  function FormIdFromUrl(url: string): (r: Option<string>)
    ensures r.Some? ==> FormUrl(r.value) == url
  {
    if |url| >= |FormsBase| + |"/viewform"| && StartsWith(url, FormsBase) && EndsWith(url, "/viewform") then
      var id := url[|FormsBase|..|url| - |"/viewform"|];
      assert FormsBase + id + "/viewform" == url by {
        assert url == url[..|FormsBase|] + id + url[|url| - |"/viewform"|..];
      }
      Some(id)
    else None
  }

  /** The view URL determines the form id. */
  lemma FormUrlRoundTrip(id: string)
    ensures FormIdFromUrl(FormUrl(id)) == Some(id)
  {
    var url := FormUrl(id);
    assert url[..|FormsBase|] == FormsBase;
    assert url[|url| - |"/viewform"|..] == "/viewform";
    assert url[|FormsBase|..|url| - |"/viewform"|] == id;
  }

  /** Titles whose hashes differ modulo 10000 get different form URLs. */
  lemma DistinctHashesDistinctUrls(h1: int, h2: int)
    requires h1 % 10000 != h2 % 10000
    ensures FormUrl(FormId(h1)) != FormUrl(FormId(h2))
  {
    FormUrlRoundTrip(FormId(h1));
    FormUrlRoundTrip(FormId(h2));
  }

  /** The fields `main.py` passes on, as `form_result.get(...)` returns them. */
  function FormFieldsJson(r: FormResult): (j: Json)
    ensures j.JObj? && |j.fields| == 2
  {
    JObj([Field("form_url", JStr(r.formUrl)), Field("form_id", JStr(r.formId))])
  }
}
