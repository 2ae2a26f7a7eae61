/**
 * The registration forms (`register-professional.js`, `register-client.js`):
 * digit normalisation, postal-code (CEP) formatting, the phone check, the
 * split of a full name into first and last name, the validators that report
 * the first failing check, the professional's address line and the payload
 * defaults. The forms read every text field trimmed; the model takes the
 * fields as read.
 */
module Registration {
  import opened Common
  import opened Text

  // ---------------------------------------------------------------------------
  // Digits, phone and CEP
  // ---------------------------------------------------------------------------

  /** The decimal digits of `s`, in order (`replace(/\D/g, "")`). */
  function Digits(s: string): (r: string)
    ensures |r| <= |s|
    ensures AllDigits(r)
    ensures |s| == 1 ==> r == (if IsDigit(s[0]) then s else [])
  {
    if s == [] then []
    else (if IsDigit(s[0]) then [s[0]] else []) + Digits(s[1..])
  }

  /**
   * Keeping digits distributes over concatenation. With the one-character
   * case of `Digits`, this fixes `Digits` on every string: each digit is kept,
   * every other character dropped, and the order is kept.
   */
  lemma {:induction false} DigitsAppend(a: string, b: string)
    ensures Digits(a + b) == Digits(a) + Digits(b)
  {
    if a == [] {
      assert a + b == b;
    } else {
      assert (a + b)[1..] == a[1..] + b;
      DigitsAppend(a[1..], b);
    }
  }

  /** A string of digits only is kept whole. */
  lemma {:induction false} DigitsOfDigits(s: string)
    requires AllDigits(s)
    ensures Digits(s) == s
  {
    if s != [] {
      DigitsOfDigits(s[1..]);
    }
  }

  /** `normalizeDigits`: a missing value reads as the empty string. */
  function NormalizeDigits(value: Option<string>): (r: string)
    ensures value.None? ==> r == ""
    ensures value.Some? ==> r == Digits(value.value)
  {
    if value.None? then "" else Digits(value.value)
  }

  /** Normalising a normalised value changes nothing. */
  lemma NormalizeIdempotent(value: Option<string>)
    ensures NormalizeDigits(Some(NormalizeDigits(value))) == NormalizeDigits(value)
  {
    DigitsOfDigits(NormalizeDigits(value));
  }

  /** `validatePhone`: an empty phone fails; otherwise it must hold 10 or 11 digits. */
  function ValidatePhone(phone: string): (ok: bool)
    ensures ok <==> 10 <= |Digits(phone)| <= 11
  {
    if phone == "" then false else 10 <= |Digits(phone)| <= 11
  }

  /** `formatCep`: eight digits become "DDDDD-DDD"; any other input is returned as it is. */
  function FormatCep(value: string): (r: string)
    ensures |Digits(value)| != 8 ==> r == value
    ensures |Digits(value)| == 8 ==> |r| == 9 && r[5] == '-' && r[..5] + r[6..] == Digits(value)
  {
    var d := Digits(value);
    if |d| != 8 then value else d[..5] + "-" + d[5..]
  }

  /** Formatting keeps the digits, and formatting again changes nothing. */
  lemma FormatCepIdempotent(value: string)
    ensures Digits(FormatCep(value)) == Digits(value)
    ensures FormatCep(FormatCep(value)) == FormatCep(value)
  {
    var d := Digits(value);
    if |d| == 8 {
      var head, tail := d[..5], d[5..];
      var f := head + "-" + tail;
      assert Digits("-") == "" by {
        assert "-"[1..] == "";
      }
      DigitsAppend(head, "-");
      DigitsAppend(head + "-", tail);
      DigitsOfDigits(head);
      DigitsOfDigits(tail);
      assert Digits(f) == head + tail;
      assert head + tail == d;
    }
  }

  // ---------------------------------------------------------------------------
  // Names
  // ---------------------------------------------------------------------------

  datatype NameParts = NameParts(firstName: string, lastName: string)

  /**
   * `splitName`: the first word, or the whole input when it has no word; the
   * remaining words joined by single spaces, or the first name again when no
   * word remains.
   */
  function SplitName(fullName: string): (n: NameParts)
    ensures Words(fullName) == [] ==> n == NameParts(fullName, fullName)
    ensures |Words(fullName)| == 1 ==> n.firstName == n.lastName == Words(fullName)[0]
    ensures |Words(fullName)| >= 2 ==> n.firstName == Words(fullName)[0] && n.lastName == Join(Words(fullName)[1..], " ")
  {
    var parts := Words(fullName);
    var first := if |parts| > 0 then parts[0] else fullName;
    var last := if |parts| > 1 then Join(parts[1..], " ") else first;
    NameParts(first, last)
  }

  /** A list of non-empty strings is its own non-empty part. */
  lemma {:induction false} NonEmptyOfNonEmpty(parts: seq<string>)
    requires forall i :: 0 <= i < |parts| ==> parts[i] != []
    ensures NonEmpty(parts) == parts
  {
    if parts != [] {
      NonEmptyOfNonEmpty(parts[1..]);
    }
  }

  /** The words of words joined by single spaces are those words. */
  lemma WordsOfJoin(words: seq<string>)
    requires |words| >= 1
    requires forall i :: 0 <= i < |words| ==> words[i] != [] && ' ' !in words[i]
    ensures Words(Join(words, " ")) == words
  {
    assert " " == [' '];
    SplitJoin(words, ' ');
    NonEmptyOfNonEmpty(words);
  }

  /**
   * A name written as two or more words separated by single spaces splits
   * into its first word and the rest, and the two parts joined by a space
   * give the name back.
   */
  lemma SplitNameRoundTrip(words: seq<string>)
    requires |words| >= 2
    requires forall i :: 0 <= i < |words| ==> words[i] != [] && ' ' !in words[i]
    ensures SplitName(Join(words, " ")) == NameParts(words[0], Join(words[1..], " "))
    ensures SplitName(Join(words, " ")).firstName + " " + SplitName(Join(words, " ")).lastName == Join(words, " ")
  {
    WordsOfJoin(words);
  }

  /** A one-word name is both first and last name. */
  lemma SplitSingleWord(word: string)
    requires word != [] && ' ' !in word
    ensures SplitName(word) == NameParts(word, word)
  {
    WordsOfJoin([word]);
  }

  // ---------------------------------------------------------------------------
  // Validation
  // ---------------------------------------------------------------------------

  /** One check of a validator and the message it reports when it fails. */
  datatype Check = Check(passes: bool, message: string)

  /** The message of the first failing check, or `None` when every check passes. */
  function FirstFailure(checks: seq<Check>): (r: Option<string>)
    ensures r.None? <==> forall k :: 0 <= k < |checks| ==> checks[k].passes
    ensures forall k ::
      (0 <= k < |checks| && !checks[k].passes && forall j :: 0 <= j < k ==> checks[j].passes) ==> r == Some(checks[k].message)
  {
    if checks == [] then None
    else if !checks[0].passes then Some(checks[0].message)
    else
      var rest := FirstFailure(checks[1..]);
      assert forall k :: 1 <= k < |checks| ==> checks[k] == checks[1..][k - 1];
      rest
  }

  const NameMessage := "Informe o nome completo."
  const EmailMessage := "Informe um email valido."
  const PhoneMessage := "Informe um telefone valido."
  const CategoryMessage := "Escolha uma categoria."
  const CepMessage := "CEP invalido."
  const AddressMessage := "Endereco incompleto."
  const SpecializationMessage := "Descreva sua especializacao."
  const PasswordMessage := "As senhas precisam ser iguais."
  const TermsMessage := "Aceite os termos para continuar."

  /** The professional form as `readForm` returns it; a category that is not a number is `None`. */
  datatype ProfessionalForm = ProfessionalForm(
    fullName: string,
    email: string,
    cpf: string,
    phone: string,
    postalCode: string,
    state: string,
    city: string,
    neighborhood: string,
    street: string,
    number: string,
    complement: string,
    specialization: string,
    categoryId: Option<int>,
    password: string,
    confirmPassword: string,
    termsAccepted: bool)

  /** The professional form's checks, in the order they are listed. */
  function ProfessionalChecks(d: ProfessionalForm): seq<Check>
  {
    [ Check(d.fullName != "", NameMessage),
      Check(d.email != "", EmailMessage),
      Check(ValidatePhone(d.phone), PhoneMessage),
      Check(d.categoryId.Some? && d.categoryId.value != 0, CategoryMessage),
      Check(|d.postalCode| == 8, CepMessage),
      Check(d.street != "" && d.number != "" && d.neighborhood != "" && d.city != "" && d.state != "", AddressMessage),
      Check(d.specialization != "", SpecializationMessage),
      Check(d.password == d.confirmPassword, PasswordMessage),
      Check(d.termsAccepted, TermsMessage) ]
  }

  /** Everything the professional form requires. */
  predicate ProfessionalFormValid(d: ProfessionalForm)
  {
    d.fullName != "" && d.email != "" && ValidatePhone(d.phone) && d.categoryId.Some? && d.categoryId.value != 0
    && |d.postalCode| == 8
    && d.street != "" && d.number != "" && d.neighborhood != "" && d.city != "" && d.state != ""
    && d.specialization != "" && d.password == d.confirmPassword && d.termsAccepted
  }

  /**
   * `validate` of the professional form: the chain of early returns. A
   * category of 0 or not a number fails, and so does a CEP whose length is
   * not 8.
   */
  function ValidateProfessional(d: ProfessionalForm): (msg: Option<string>)
    ensures msg.None? <==> ProfessionalFormValid(d)
  {
    if d.fullName == "" then Some(NameMessage)
    else if d.email == "" then Some(EmailMessage)
    else if !ValidatePhone(d.phone) then Some(PhoneMessage)
    else if d.categoryId.None? || d.categoryId.value == 0 then Some(CategoryMessage)
    else if d.postalCode == "" || |d.postalCode| != 8 then Some(CepMessage)
    else if d.street == "" || d.number == "" || d.neighborhood == "" || d.city == "" || d.state == "" then Some(AddressMessage)
    else if d.specialization == "" then Some(SpecializationMessage)
    else if d.password != d.confirmPassword then Some(PasswordMessage)
    else if !d.termsAccepted then Some(TermsMessage)
    else None
  }

  /** A passing check at `i` hands the search on to the next one. */
  lemma PassOn(c: seq<Check>, i: nat)
    requires i < |c| && c[i].passes
    ensures FirstFailure(c[i..]) == FirstFailure(c[i + 1..])
  {
    assert c[i..][1..] == c[i + 1..];
  }

  /** The validator reports exactly the first failing check of the list, in order. */
  lemma ValidateProfessionalFirstFailure(d: ProfessionalForm)
    ensures ValidateProfessional(d) == FirstFailure(ProfessionalChecks(d))
  {
    var c := ProfessionalChecks(d);
    assert c[0..] == c;
    if d.fullName != "" {
      PassOn(c, 0);
      if d.email != "" {
        PassOn(c, 1);
        if ValidatePhone(d.phone) {
          PassOn(c, 2);
          if d.categoryId.Some? && d.categoryId.value != 0 {
            PassOn(c, 3);
            ProfessionalAddressChecks(d);
          }
        }
      }
    }
  }

  /** Once name, e-mail, phone and category pass, the rest of the list decides as the validator does. */
  lemma ProfessionalAddressChecks(d: ProfessionalForm)
    requires d.fullName != "" && d.email != "" && ValidatePhone(d.phone) && d.categoryId.Some? && d.categoryId.value != 0
    ensures ValidateProfessional(d) == FirstFailure(ProfessionalChecks(d)[4..])
  {
    var c := ProfessionalChecks(d);
    if |d.postalCode| == 8 {
      PassOn(c, 4);
      if d.street != "" && d.number != "" && d.neighborhood != "" && d.city != "" && d.state != "" {
        PassOn(c, 5);
        if d.specialization != "" {
          PassOn(c, 6);
          if d.password == d.confirmPassword {
            PassOn(c, 7);
            if d.termsAccepted {
              PassOn(c, 8);
            }
          }
        }
      }
    }
  }

  /** The client form as `readForm` returns it. */
  datatype ClientForm = ClientForm(
    fullName: string,
    email: string,
    cpf: string,
    phone: string,
    password: string,
    confirmPassword: string,
    termsAccepted: bool)

  /** The client form's checks in order: terms come before the passwords here. */
  function ClientChecks(d: ClientForm): seq<Check>
  {
    [ Check(d.fullName != "", NameMessage),
      Check(d.email != "", EmailMessage),
      Check(d.termsAccepted, TermsMessage),
      Check(d.password == d.confirmPassword, PasswordMessage) ]
  }

  /** `validate` of the client form: the chain of early returns. */
  function ValidateClient(d: ClientForm): (msg: Option<string>)
    ensures msg.None? <==> d.fullName != "" && d.email != "" && d.termsAccepted && d.password == d.confirmPassword
  {
    if d.fullName == "" then Some(NameMessage)
    else if d.email == "" then Some(EmailMessage)
    else if !d.termsAccepted then Some(TermsMessage)
    else if d.password != d.confirmPassword then Some(PasswordMessage)
    else None
  }

  /** The client validator reports exactly the first failing check of its list. */
  lemma ValidateClientFirstFailure(d: ClientForm)
    ensures ValidateClient(d) == FirstFailure(ClientChecks(d))
  {
    var c := ClientChecks(d);
    assert c[0..] == c;
    if d.fullName != "" {
      PassOn(c, 0);
      if d.email != "" {
        PassOn(c, 1);
        if d.termsAccepted {
          PassOn(c, 2);
          if d.password == d.confirmPassword {
            PassOn(c, 3);
          }
        }
      }
    }
  }

  // ---------------------------------------------------------------------------
  // Payloads
  // ---------------------------------------------------------------------------

  /**
   * The address line of `buildProfessionalPayload`: street and number, the
   * complement, the neighbourhood, city and state, and the formatted CEP,
   * the empty ones left out, joined by " - ".
   */
  function BuildAddress(d: ProfessionalForm): (r: string)
    ensures r == Join([d.street + ", " + d.number]
                      + (if d.complement != "" then [d.complement] else [])
                      + (if d.neighborhood != "" then ["Bairro " + d.neighborhood] else [])
                      + [d.city + "/" + d.state]
                      + (if d.postalCode != "" then ["CEP " + FormatCep(d.postalCode)] else []),
                      " - ")
  {
    AddressKeptParts(d);
    Join(NonEmpty(AddressParts(d)), " - ")
  }

  /** The five candidate parts of the address line, an absent one empty. */
  function AddressParts(d: ProfessionalForm): (parts: seq<string>)
    ensures |parts| == 5
    ensures parts[0] == d.street + ", " + d.number && parts[1] == d.complement
    ensures parts[2] == (if d.neighborhood != "" then "Bairro " + d.neighborhood else "")
    ensures parts[3] == d.city + "/" + d.state
    ensures parts[4] == (if d.postalCode != "" then "CEP " + FormatCep(d.postalCode) else "")
    ensures parts[0] != [] && parts[3] != []
    ensures parts[2] == [] <==> d.neighborhood == ""
    ensures parts[4] == [] <==> d.postalCode == ""
  {
    [ d.street + ", " + d.number,
      d.complement,
      if d.neighborhood != "" then "Bairro " + d.neighborhood else "",
      d.city + "/" + d.state,
      if d.postalCode != "" then "CEP " + FormatCep(d.postalCode) else "" ]
  }

  /**
   * Street and number, and city and state, are always on the line; the
   * complement, the neighbourhood and the CEP each exactly when given.
   */
  lemma AddressKeptParts(d: ProfessionalForm)
    ensures NonEmpty(AddressParts(d))
            == [d.street + ", " + d.number]
               + (if d.complement != "" then [d.complement] else [])
               + (if d.neighborhood != "" then ["Bairro " + d.neighborhood] else [])
               + [d.city + "/" + d.state]
               + (if d.postalCode != "" then ["CEP " + FormatCep(d.postalCode)] else [])
  {
    var p := AddressParts(d);
    assert p == [p[0]] + [p[1]] + [p[2]] + [p[3]] + [p[4]];
    NonEmptyAppend([p[0]] + [p[1]] + [p[2]] + [p[3]], [p[4]]);
    NonEmptyAppend([p[0]] + [p[1]] + [p[2]], [p[3]]);
    NonEmptyAppend([p[0]] + [p[1]], [p[2]]);
    NonEmptyAppend([p[0]], [p[1]]);
    forall x: string ensures NonEmpty([x]) == (if x == [] then [] else [x]) {
      assert [x][1..] == [];
    }
  }

  /** With complement, neighbourhood and CEP given, no part is left out of the line. */
  lemma FullAddress(d: ProfessionalForm)
    requires d.complement != "" && d.neighborhood != "" && d.postalCode != ""
    ensures NonEmpty(AddressParts(d)) == AddressParts(d)
    ensures BuildAddress(d) == Join(AddressParts(d), " - ")
  {
    NonEmptyOfNonEmpty(AddressParts(d));
  }

  /** Without complement, neighbourhood and CEP, the line is street and number, then city and state. */
  lemma MinimalAddress(d: ProfessionalForm)
    requires d.complement == "" && d.neighborhood == "" && d.postalCode == ""
    ensures BuildAddress(d) == (d.street + ", " + d.number) + " - " + (d.city + "/" + d.state)
  {
    var p := AddressParts(d);
    assert NonEmpty(p[4..]) == [];
    assert NonEmpty(p[3..]) == [p[3]] + NonEmpty(p[4..]);
    assert NonEmpty(p[2..]) == NonEmpty(p[3..]);
    assert NonEmpty(p[1..]) == NonEmpty(p[2..]);
    assert NonEmpty(p) == [p[0], p[3]];
    var kept := [p[0], p[3]];
    assert kept[1..] == [p[3]];
    assert Join(kept, " - ") == p[0] + " - " + Join([p[3]], " - ");
    assert BuildAddress(d) == Join(kept, " - ");
  }

  /** The sign-up request (`RegisterDto`). */
  datatype RegisterPayload = RegisterPayload(
    firstName: string,
    lastName: string,
    email: string,
    password: string,
    phone: Option<string>)

  /** The client record posted after sign-up. */
  datatype ClientPayload = ClientPayload(name: string, email: string, phone: string, cpf: Option<string>)

  /** `buildRegisterPayload` of the client form: the split name; an empty phone is sent as null. */
  function ClientRegisterPayload(d: ClientForm): (p: RegisterPayload)
    ensures p.firstName == SplitName(d.fullName).firstName && p.lastName == SplitName(d.fullName).lastName
    ensures p.email == d.email && p.password == d.password
    ensures p.phone.None? <==> d.phone == ""
    ensures p.phone.Some? ==> p.phone.value == d.phone
  {
    var n := SplitName(d.fullName);
    RegisterPayload(n.firstName, n.lastName, d.email, d.password, if d.phone == "" then None else Some(d.phone))
  }

  /** `buildRegisterPayload` of the professional form: the phone is always sent. */
  function ProfessionalRegisterPayload(d: ProfessionalForm): (p: RegisterPayload)
    ensures p.firstName == SplitName(d.fullName).firstName && p.lastName == SplitName(d.fullName).lastName
    ensures p.email == d.email && p.password == d.password && p.phone == Some(d.phone)
  {
    var n := SplitName(d.fullName);
    RegisterPayload(n.firstName, n.lastName, d.email, d.password, Some(d.phone))
  }

  /** `buildClientPayload`: an empty phone stays the empty string; an empty CPF is sent as null. */
  function BuildClientPayload(d: ClientForm): (p: ClientPayload)
    ensures p.name == d.fullName && p.email == d.email && p.phone == d.phone
    ensures p.cpf.None? <==> d.cpf == ""
    ensures p.cpf.Some? ==> p.cpf.value == d.cpf
  {
    ClientPayload(d.fullName, d.email, d.phone, if d.cpf == "" then None else Some(d.cpf))
  }
}
