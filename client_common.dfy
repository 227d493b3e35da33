/** What the client pages share: the text of a numeric input, the outcome
    of an API call as the pages see it, and the badge colour of a
    category. */
module ClientCommon {
  import opened Common

  /** A numeric text input: empty, or text that parses as a number
      (parseFloat). */
  datatype NumberText = Blank | Numeric(value: real)
  {
    /** The input is truthy: any non-empty text, "0" included. */
    predicate Filled() {
      this.Numeric?
    }
  }

  /** An awaited API call: the data of a 2xx reply, or the `message` of the
      error reply (None when the call got no reply or the reply had none). */
  datatype Response<T> = Success(data: T) | Failure(message: Option<string>)

  /** `error.response?.data?.message || fallback`. */
  function ErrorText(message: Option<string>, fallback: string): (t: string)
    ensures message.Some? && message.value != "" ==> t == message.value
    ensures message.None? || message.value == "" ==> t == fallback
  {
    if message.Some? && message.value != "" then message.value else fallback
  }

  const HealthColor: string := "bg-red-100 text-red-800"
  const EducationColor: string := "bg-blue-100 text-blue-800"
  const DisasterColor: string := "bg-orange-100 text-orange-800"
  const OthersColor: string := "bg-gray-100 text-gray-800"

  /** `getCategoryColor`, written identically on four pages:
      `colors[category] || colors.others`. */
  function CategoryColor(category: string): (color: string)
    ensures category !in {"health", "education", "disaster"} ==> color == OthersColor
  {
    if category == "health" then HealthColor
    else if category == "education" then EducationColor
    else if category == "disaster" then DisasterColor
    else OthersColor
  }

  /** The three named categories get three different colours, none of them
      the fallback; every other category, 'others' included, shares the
      fallback. */
  lemma CategoryColorsDistinct(a: string, b: string)
    requires a in {"health", "education", "disaster"}
    ensures CategoryColor(a) != OthersColor
    ensures CategoryColor(a) == CategoryColor(b) <==> a == b
  {
  }
}
