/** `getUserErrorMessage`: a raw error message mapped to one of five messages for the user. */
module ErrorMessages {
  import opened JsSemantics

  const CityNotFound := "Город не найден. Проверьте правильность написания."
  const InvalidApiKey := "Неверный API ключ. Пожалуйста, проверьте настройки."
  const TooManyRequests := "Превышен лимит запросов. Попробуйте позже."
  const ConnectionProblem := "Проблемы с соединением. Проверьте интернет."
  const GenericFailure := "Произошла ошибка при загрузке данных о погоде."

  /** The message the geocoding step throws when the city is unknown. */
  const CityNotFoundError := "Город не найден"

  const UserMessages: seq<string> :=
    [CityNotFound, InvalidApiKey, TooManyRequests, ConnectionProblem, GenericFailure]

  /** The checks of `getUserErrorMessage`, in the order it makes them. */
  function GetUserErrorMessage(error: string): (message: string)
    ensures message in UserMessages
  {
    if Includes(error, "404") || Includes(error, CityNotFoundError) then CityNotFound
    else if Includes(error, "401") then InvalidApiKey
    else if Includes(error, "429") then TooManyRequests
    else if Includes(error, "NetworkError") then ConnectionProblem
    else GenericFailure
  }

  /** A rule: if the error contains any of `markers`, the user sees `message`. */
  datatype Rule = Rule(markers: seq<string>, message: string)

  /** The classification as a table, highest priority first. */
  const Rules: seq<Rule> := [
    Rule(["404", CityNotFoundError], CityNotFound),
    Rule(["401"], InvalidApiKey),
    Rule(["429"], TooManyRequests),
    Rule(["NetworkError"], ConnectionProblem)
  ]

  predicate Matches(rule: Rule, error: string)
  {
    exists m :: m in rule.markers && Includes(error, m)
  }

  /** The message of the first rule that matches, or `otherwise` when none does. */
  function FirstMatch(rules: seq<Rule>, error: string, otherwise: string): (message: string)
    ensures message == otherwise || exists i :: 0 <= i < |rules| && message == rules[i].message
    ensures (forall i :: 0 <= i < |rules| ==> !Matches(rules[i], error)) ==> message == otherwise
    ensures forall i :: 0 <= i < |rules| && Matches(rules[i], error)
                          && (forall k :: 0 <= k < i ==> !Matches(rules[k], error))
                        ==> message == rules[i].message
  {
    if |rules| == 0 then otherwise
    else if Matches(rules[0], error) then rules[0].message
    else FirstMatch(rules[1..], error, otherwise)
  }

  /** The chain of checks in the source is the first-match reading of the rule table. */
  lemma {:induction false} UserErrorMessageIsFirstMatch(error: string)
    ensures GetUserErrorMessage(error) == FirstMatch(Rules, error, GenericFailure)
  {
    assert Matches(Rules[0], error) <==> Includes(error, "404") || Includes(error, CityNotFoundError) by {
      if Includes(error, "404") {
        assert "404" in Rules[0].markers;
      }
      if Includes(error, CityNotFoundError) {
        assert CityNotFoundError in Rules[0].markers;
      }
    }
    assert Matches(Rules[1], error) <==> Includes(error, "401") by {
      if Includes(error, "401") {
        assert "401" in Rules[1].markers;
      }
    }
    assert Matches(Rules[2], error) <==> Includes(error, "429") by {
      if Includes(error, "429") {
        assert "429" in Rules[2].markers;
      }
    }
    assert Matches(Rules[3], error) <==> Includes(error, "NetworkError") by {
      if Includes(error, "NetworkError") {
        assert "NetworkError" in Rules[3].markers;
      }
    }
    var r1, r2, r3 := Rules[1..], Rules[2..], Rules[3..];
    assert r1[0] == Rules[1] && r1[1..] == r2;
    assert r2[0] == Rules[2] && r2[1..] == r3;
    assert r3[0] == Rules[3] && r3[1..] == [];
    var g := GenericFailure;
    assert FirstMatch(r3, error, g) == if Matches(Rules[3], error) then ConnectionProblem else g;
    assert FirstMatch(r2, error, g)
        == if Matches(Rules[2], error) then TooManyRequests else FirstMatch(r3, error, g);
    assert FirstMatch(r1, error, g)
        == if Matches(Rules[1], error) then InvalidApiKey else FirstMatch(r2, error, g);
    assert FirstMatch(Rules, error, g)
        == if Matches(Rules[0], error) then CityNotFound else FirstMatch(r1, error, g);
  }

  /** The five messages are different, so the message tells the user which check fired. */
  lemma {:induction false} UserMessagesDistinct()
    ensures forall i, j :: 0 <= i < j < |UserMessages| ==> UserMessages[i] != UserMessages[j]
  {
    assert |CityNotFound| == 50 && |InvalidApiKey| == 51 && |TooManyRequests| == 42;
    assert |ConnectionProblem| == 43 && |GenericFailure| == 46;
  }

  /**
   * Priority: a message naming a missing city wins over every other marker,
   * "401" over "429" and "NetworkError", "429" over "NetworkError"; the
   * generic message is shown exactly when no marker occurs.
   */
  lemma {:induction false} UserErrorMessagePriority(error: string)
    ensures (GetUserErrorMessage(error) == CityNotFound)
              <==> Includes(error, "404") || Includes(error, CityNotFoundError)
    ensures (GetUserErrorMessage(error) == InvalidApiKey)
              <==> Includes(error, "401") && !Includes(error, "404") && !Includes(error, CityNotFoundError)
    ensures (GetUserErrorMessage(error) == TooManyRequests)
              <==> Includes(error, "429") && !Includes(error, "401")
                   && !Includes(error, "404") && !Includes(error, CityNotFoundError)
    ensures (GetUserErrorMessage(error) == ConnectionProblem)
              <==> Includes(error, "NetworkError") && !Includes(error, "429") && !Includes(error, "401")
                   && !Includes(error, "404") && !Includes(error, CityNotFoundError)
    ensures (GetUserErrorMessage(error) == GenericFailure)
              <==> !Includes(error, "NetworkError") && !Includes(error, "429") && !Includes(error, "401")
                   && !Includes(error, "404") && !Includes(error, CityNotFoundError)
  {
    UserMessagesDistinct();
    assert UserMessages[0] == CityNotFound && UserMessages[1] == InvalidApiKey;
    assert UserMessages[2] == TooManyRequests && UserMessages[3] == ConnectionProblem;
    assert UserMessages[4] == GenericFailure;
  }

  /** The errors that the request methods throw are classified as intended. */
  lemma {:induction false} ThrownErrorsClassified()
    ensures GetUserErrorMessage("Геокодирование: 404") == CityNotFound
    ensures GetUserErrorMessage(CityNotFoundError) == CityNotFound
  {
    IncludesAt("Геокодирование: 404", "404", 16);
    IncludesAt(CityNotFoundError, CityNotFoundError, 0);
  }
}
