/**
 * The employee form's validation schema (`formSchema`): one rule per field,
 * each a predicate over the field's string. The email check, the numeric
 * check of the household size and the remote "CPF already registered"
 * answer are outside the form's own code and enter as parameters.
 */
module FieldRules {
  import opened Wrappers
  import opened Pattern

  /** The fields of the form, in schema order. */
  datatype Field = Nome | DataNascimento | Endereco | Cpf | Email | Telefone | PessoasNaCasa | EmpresaId

  /** The values the form holds; `pessoasNaCasa` is the one optional field. */
  datatype Values = Values(
    nome: string,
    dataNascimento: string,
    endereco: string,
    cpf: string,
    email: string,
    telefone: string,
    pessoasNaCasa: Option<string>,
    empresaId: string)

  /**
   * What validation learns from outside the schema's own code: the email
   * check of the validation library, JavaScript's `!isNaN(Number(v))`, and
   * the `exists` answer of the remote CPF lookup.
   */
  datatype Checks = Checks(isEmail: string -> bool, isNumeric: string -> bool, cpfExists: bool)

  /** `^\d{2}\/\d{2}\/\d{4}$` */
  const DateRegex: seq<Piece> :=
    [Times(Digit, 2), Once(Literal('/')), Times(Digit, 2), Once(Literal('/')), Times(Digit, 4)]

  /** `^\d{3}\.\d{3}\.\d{3}-\d{2}$` */
  const CpfRegex: seq<Piece> :=
    [Times(Digit, 3), Once(Literal('.')), Times(Digit, 3), Once(Literal('.')), Times(Digit, 3),
     Once(Literal('-')), Times(Digit, 2)]

  /** `^\(\d{2}\)\s\d{4,5}-\d{4}$` */
  const PhoneRegex: seq<Piece> :=
    [Once(Literal('(')), Times(Digit, 2), Once(Literal(')')), Once(Space), Piece(Digit, 4, 5),
     Once(Literal('-')), Times(Digit, 4)]

  // ---------------------------------------------------------------------
  // The rules of the schema, field by field
  // ---------------------------------------------------------------------

  predicate NomeOk(s: string) {
    |s| >= 2
  }

  predicate DataNascimentoOk(s: string) {
    Matches(DateRegex, s)
  }

  predicate EnderecoOk(s: string) {
    |s| >= 5
  }

  /** The pattern, then the remote lookup: a CPF reported as existing is rejected. */
  predicate CpfOk(s: string, cpfExists: bool) {
    Matches(CpfRegex, s) && !cpfExists
  }

  predicate TelefoneOk(s: string) {
    Matches(PhoneRegex, s)
  }

  /** Absent or empty passes; only a non-empty value is tested for being numeric. */
  predicate PessoasNaCasaOk(v: Option<string>, isNumeric: string -> bool) {
    match v
    case None => true
    case Some(s) => s == "" || isNumeric(s)
  }

  predicate EmpresaIdOk(s: string) {
    |s| >= 1
  }

  predicate FieldOk(f: Field, v: Values, c: Checks) {
    match f
    case Nome => NomeOk(v.nome)
    case DataNascimento => DataNascimentoOk(v.dataNascimento)
    case Endereco => EnderecoOk(v.endereco)
    case Cpf => CpfOk(v.cpf, c.cpfExists)
    case Email => c.isEmail(v.email)
    case Telefone => TelefoneOk(v.telefone)
    case PessoasNaCasa => PessoasNaCasaOk(v.pessoasNaCasa, c.isNumeric)
    case EmpresaId => EmpresaIdOk(v.empresaId)
  }

  /** Every field of the schema. */
  const AllFields: set<Field> :=
    {Nome, DataNascimento, Endereco, Cpf, Email, Telefone, PessoasNaCasa, EmpresaId}

  lemma AllFieldsComplete()
    ensures forall f: Field :: f in AllFields
  {
    forall f: Field ensures f in AllFields {
      match f
      case Nome =>
      case DataNascimento =>
      case Endereco =>
      case Cpf =>
      case Email =>
      case Telefone =>
      case PessoasNaCasa =>
      case EmpresaId =>
    }
  }

  /** The fields the schema reports an error for. */
  function Errors(v: Values, c: Checks): (errs: set<Field>)
    ensures forall f :: f in errs <==> !FieldOk(f, v, c)
  {
    AllFieldsComplete();
    set f | f in AllFields && !FieldOk(f, v, c)
  }

  /**
   * The schema's verdict: the values themselves when every rule passes,
   * otherwise the set of failing fields.
   */
  function Validate(v: Values, c: Checks): (r: Result<Values, set<Field>>)
    ensures r.Ok? <==> forall f :: FieldOk(f, v, c)
    ensures r.Ok? ==> r.value == v
    ensures r.Err? ==> r.error != {} && forall f :: f in r.error <==> !FieldOk(f, v, c)
    ensures c.cpfExists ==> r.Err? && Cpf in r.error
  {
    var errs := Errors(v, c);
    assert c.cpfExists ==> Cpf in errs;
    if errs == {} then Ok(v) else Err(errs)
  }

  // ---------------------------------------------------------------------
  // The formats, read position by position
  // ---------------------------------------------------------------------

  /** `DD/MM/YYYY`: two digits, '/', two digits, '/', four digits. */
  predicate IsDateShape(s: string) {
    && |s| == 10
    && AllDigits(s[0..2]) && s[2] == '/'
    && AllDigits(s[3..5]) && s[5] == '/'
    && AllDigits(s[6..10])
  }

  /** `NNN.NNN.NNN-NN`. */
  predicate IsCpfShape(s: string) {
    && |s| == 14
    && AllDigits(s[0..3]) && s[3] == '.'
    && AllDigits(s[4..7]) && s[7] == '.'
    && AllDigits(s[8..11]) && s[11] == '-'
    && AllDigits(s[12..14])
  }

  /** `(NN) NNNN-NNNN` or `(NN) NNNNN-NNNN`, with any white-space character after ')'. */
  predicate IsPhoneShape(s: string) {
    && (|s| == 14 || |s| == 15)
    && s[0] == '(' && AllDigits(s[1..3]) && s[3] == ')' && IsSpace(s[4])
    && AllDigits(s[5..|s| - 5]) && s[|s| - 5] == '-'
    && AllDigits(s[|s| - 4..])
  }

  /** The birth-date pattern accepts exactly the `DD/MM/YYYY` shapes. */
  lemma DateRegexShape(s: string)
    ensures Matches(DateRegex, s) <==> IsDateShape(s)
  {
    var r := DateRegex;
    assert r[0..] == r && s[0..] == s;
    FixedStep(r, 0, s, 0);
    if |s| >= 2 {
      FixedStep(r, 1, s, 2);
      if |s| >= 3 {
        FixedStep(r, 2, s, 3);
        if |s| >= 5 {
          FixedStep(r, 3, s, 5);
          if |s| >= 6 {
            FixedStep(r, 4, s, 6);
            if |s| >= 10 {
              assert r[5..] == [];
              EndStep(s, 10);
              OneChar(Literal('/'), s, 2);
              OneChar(Literal('/'), s, 5);
            }
          }
        }
      }
    }
  }

  /** The CPF pattern's `\d{3}-\d{2}$`, read from position 8. */
  lemma CpfTailShape(s: string)
    requires |s| >= 8
    ensures Matches(CpfRegex[4..], s[8..]) <==>
      |s| == 14 && AllDigits(s[8..11]) && s[11] == '-' && AllDigits(s[12..14])
  {
    var r := CpfRegex;
    FixedStep(r, 4, s, 8);
    if |s| >= 11 {
      FixedStep(r, 5, s, 11);
      if |s| >= 12 {
        FixedStep(r, 6, s, 12);
        if |s| >= 14 {
          assert r[7..] == [];
          EndStep(s, 14);
          OneChar(Literal('-'), s, 11);
        }
      }
    }
  }

  /** `NNN.NNN.` in the first eight positions. */
  predicate CpfFront(s: string)
    requires |s| >= 8
  {
    AllDigits(s[0..3]) && s[3] == '.' && AllDigits(s[4..7]) && s[7] == '.'
  }

  /** The CPF pattern's second `\d{3}\.`, read from position 4. */
  lemma CpfMiddleSteps(s: string)
    requires |s| >= 8
    ensures Matches(CpfRegex[2..], s[4..]) <==>
      AllDigits(s[4..7]) && AllIn(Literal('.'), s[7..8]) && Matches(CpfRegex[4..], s[8..])
  {
    FixedStep(CpfRegex, 2, s, 4);
    FixedStep(CpfRegex, 3, s, 7);
  }

  /** The CPF pattern's `^\d{3}\.\d{3}\.`, one piece at a time. */
  lemma CpfFrontSteps(s: string)
    requires |s| >= 8
    ensures Matches(CpfRegex, s) <==>
      && AllDigits(s[0..3]) && AllIn(Literal('.'), s[3..4]) && AllDigits(s[4..7]) && AllIn(Literal('.'), s[7..8])
      && Matches(CpfRegex[4..], s[8..])
  {
    var r := CpfRegex;
    assert r[0..] == r && s[0..] == s;
    FixedStep(r, 0, s, 0);
    FixedStep(r, 1, s, 3);
    CpfMiddleSteps(s);
  }

  /** The front's separators, read as characters. */
  lemma CpfFrontChars(s: string)
    requires |s| >= 8
    ensures
      && AllDigits(s[0..3]) && AllIn(Literal('.'), s[3..4]) && AllDigits(s[4..7]) && AllIn(Literal('.'), s[7..8])
      <==> CpfFront(s)
  {
    OneChar(Literal('.'), s, 3);
    OneChar(Literal('.'), s, 7);
  }

  /** The CPF pattern needs at least eight characters before the last group of three digits. */
  lemma CpfTooShort(s: string)
    requires |s| < 8
    ensures !Matches(CpfRegex, s)
  {
    var r := CpfRegex;
    assert r[0..] == r && s[0..] == s;
    FixedStep(r, 0, s, 0);
    if |s| >= 3 {
      FixedStep(r, 1, s, 3);
      if |s| >= 4 {
        FixedStep(r, 2, s, 4);
        if |s| >= 7 {
          FixedStep(r, 3, s, 7);
        }
      }
    }
  }

  /** The CPF pattern accepts exactly the `NNN.NNN.NNN-NN` shapes. */
  lemma CpfRegexShape(s: string)
    ensures Matches(CpfRegex, s) <==> IsCpfShape(s)
  {
    if |s| >= 8 {
      CpfFrontSteps(s);
      CpfFrontChars(s);
      CpfTailShape(s);
    } else {
      CpfTooShort(s);
    }
  }

  /** The phone pattern's tail `-\d{4}$`, read from position `i`. */
  lemma PhoneTailShape(s: string, i: nat)
    requires i <= |s|
    ensures Matches(PhoneRegex[5..], s[i..]) <==>
      |s| == i + 5 && s[i] == '-' && AllDigits(s[i + 1..])
  {
    var r := PhoneRegex;
    FixedStep(r, 5, s, i);
    if |s| >= i + 1 {
      FixedStep(r, 6, s, i + 1);
      OneChar(Literal('-'), s, i);
      if |s| >= i + 5 {
        assert r[7..] == [];
        EndStep(s, i + 5);
        if |s| == i + 5 {
          assert s[i + 1..i + 5] == s[i + 1..];
        }
      }
    }
  }

  /** The phone pattern's `\d{4,5}-\d{4}$`, read from position 5. */
  lemma PhoneNumberShape(s: string)
    requires |s| >= 5
    ensures Matches(PhoneRegex[4..], s[5..]) <==>
      && (|s| == 14 || |s| == 15)
      && AllDigits(s[5..|s| - 5]) && s[|s| - 5] == '-' && AllDigits(s[|s| - 4..])
  {
    RangeStep(PhoneRegex, 4, s, 5);
    if |s| >= 9 {
      PhoneTailShape(s, 9);
    }
    if |s| >= 10 {
      PhoneTailShape(s, 10);
    }
  }

  /** `(NN)` and a white-space character in the first five positions. */
  predicate PhoneHead(s: string)
    requires |s| >= 5
  {
    s[0] == '(' && AllDigits(s[1..3]) && s[3] == ')' && IsSpace(s[4])
  }

  /** The phone pattern's `\)\s`, read from position 3. */
  lemma PhoneCloseSteps(s: string)
    requires |s| >= 5
    ensures Matches(PhoneRegex[2..], s[3..]) <==>
      AllIn(Literal(')'), s[3..4]) && AllIn(Space, s[4..5]) && Matches(PhoneRegex[4..], s[5..])
  {
    FixedStep(PhoneRegex, 2, s, 3);
    FixedStep(PhoneRegex, 3, s, 4);
  }

  /** The phone pattern's `^\(\d{2}\)\s`, one piece at a time. */
  lemma PhoneHeadSteps(s: string)
    requires |s| >= 5
    ensures Matches(PhoneRegex, s) <==>
      && AllIn(Literal('('), s[0..1]) && AllDigits(s[1..3]) && AllIn(Literal(')'), s[3..4]) && AllIn(Space, s[4..5])
      && Matches(PhoneRegex[4..], s[5..])
  {
    var r := PhoneRegex;
    assert r[0..] == r && s[0..] == s;
    FixedStep(r, 0, s, 0);
    FixedStep(r, 1, s, 1);
    PhoneCloseSteps(s);
  }

  /** The head's single-character pieces, read as characters. */
  lemma PhoneHeadChars(s: string)
    requires |s| >= 5
    ensures
      && AllIn(Literal('('), s[0..1]) && AllDigits(s[1..3]) && AllIn(Literal(')'), s[3..4]) && AllIn(Space, s[4..5])
      <==> PhoneHead(s)
  {
    OneChar(Literal('('), s, 0);
    OneChar(Literal(')'), s, 3);
    OneChar(Space, s, 4);
  }

  /** The phone pattern's `^\(\d{2}\)\s`, read from the start of a string of five or more characters. */
  lemma PhoneHeadShape(s: string)
    requires |s| >= 5
    ensures Matches(PhoneRegex, s) <==> PhoneHead(s) && Matches(PhoneRegex[4..], s[5..])
  {
    PhoneHeadSteps(s);
    PhoneHeadChars(s);
  }

  /** The phone pattern needs at least five characters before the number. */
  lemma PhoneTooShort(s: string)
    requires |s| < 5
    ensures !Matches(PhoneRegex, s)
  {
    var r := PhoneRegex;
    assert r[0..] == r && s[0..] == s;
    FixedStep(r, 0, s, 0);
    if |s| >= 1 {
      FixedStep(r, 1, s, 1);
      if |s| >= 3 {
        FixedStep(r, 2, s, 3);
        if |s| >= 4 {
          FixedStep(r, 3, s, 4);
        }
      }
    }
  }

  /** The phone pattern accepts exactly `(NN)`, one white-space character, 4 or 5 digits, '-', 4 digits. */
  lemma PhoneRegexShape(s: string)
    ensures Matches(PhoneRegex, s) <==> IsPhoneShape(s)
  {
    if |s| >= 5 {
      PhoneHeadShape(s);
      PhoneNumberShape(s);
    } else {
      PhoneTooShort(s);
    }
  }

  // ---------------------------------------------------------------------
  // What the schema accepts
  // ---------------------------------------------------------------------

  /** Each field's rule, read without regular expressions. */
  lemma {:induction false} SchemaRules(v: Values, c: Checks)
    ensures Nome !in Errors(v, c) <==> |v.nome| >= 2
    ensures DataNascimento !in Errors(v, c) <==> IsDateShape(v.dataNascimento)
    ensures Endereco !in Errors(v, c) <==> |v.endereco| >= 5
    ensures Cpf !in Errors(v, c) <==> IsCpfShape(v.cpf) && !c.cpfExists
    ensures Email !in Errors(v, c) <==> c.isEmail(v.email)
    ensures Telefone !in Errors(v, c) <==> IsPhoneShape(v.telefone)
    ensures PessoasNaCasa !in Errors(v, c) <==>
      v.pessoasNaCasa == None || v.pessoasNaCasa == Some("") || c.isNumeric(v.pessoasNaCasa.value)
    ensures EmpresaId !in Errors(v, c) <==> v.empresaId != ""
  {
    DateRegexShape(v.dataNascimento);
    CpfRegexShape(v.cpf);
    PhoneRegexShape(v.telefone);
  }

  /** Accepted dates, CPFs and phone numbers have fixed lengths. */
  lemma {:induction false} AcceptedLengths(v: Values, c: Checks)
    ensures DataNascimento !in Errors(v, c) ==> |v.dataNascimento| == 10
    ensures Cpf !in Errors(v, c) ==> |v.cpf| == 14
    ensures Telefone !in Errors(v, c) ==> |v.telefone| == 14 || |v.telefone| == 15
  {
    SchemaRules(v, c);
  }

  /**
   * There is no calendar check: any eight digits laid out as `DD/MM/YYYY`
   * pass, "99/99/9999" and "31/02/2023" among them.
   */
  lemma {:induction false} AnyDigitsFormADate(d0: char, d1: char, m0: char, m1: char, y0: char, y1: char, y2: char, y3: char)
    requires IsDigit(d0) && IsDigit(d1) && IsDigit(m0) && IsDigit(m1)
    requires IsDigit(y0) && IsDigit(y1) && IsDigit(y2) && IsDigit(y3)
    ensures DataNascimentoOk([d0, d1, '/', m0, m1, '/', y0, y1, y2, y3])
  {
    var s := [d0, d1, '/', m0, m1, '/', y0, y1, y2, y3];
    DateRegexShape(s);
    assert IsDateShape(s);
  }

  /** A date without leading zeros, with another separator or with a two-digit year is refused. */
  lemma DatesRejected(s: string)
    requires s == "1/1/1990" || s == "01-01-1990" || s == "01/01/90"
    ensures !DataNascimentoOk(s)
  {
    DateRegexShape(s);
  }

  /**
   * There is no check-digit verification: replacing the two check digits of
   * an accepted CPF by any digits keeps it accepted, so "123.456.789-09"
   * (correct check digits) and "123.456.789-00" (wrong ones) are treated
   * alike.
   */
  lemma {:induction false} AnyCheckDigits(s: string, c0: char, c1: char)
    requires CpfOk(s, false) && IsDigit(c0) && IsDigit(c1)
    ensures |s| == 14 && CpfOk(s[..12] + [c0, c1], false)
  {
    CpfRegexShape(s);
    var t := s[..12] + [c0, c1];
    CpfRegexShape(t);
    assert t[0..3] == s[0..3] && t[4..7] == s[4..7] && t[8..11] == s[8..11];
    assert t[3] == s[3] && t[7] == s[7] && t[11] == s[11];
    assert t[12..14] == [c0, c1];
    assert IsCpfShape(t);
  }

  /** An unformatted or short CPF is refused whatever the lookup says. */
  lemma CpfsRejected(s: string, cpfExists: bool)
    requires s == "12345678909" || s == "123.456.789-9" || s == "123-456-789.09"
    ensures !CpfOk(s, cpfExists)
  {
    CpfRegexShape(s);
  }

  /**
   * The separator after the area code may be any white-space character,
   * not only the space the input mask types.
   */
  lemma {:induction false} AnySpaceInPhone(s: string, w: char)
    requires TelefoneOk(s) && IsSpace(w)
    ensures |s| >= 5 && TelefoneOk(s[..4] + [w] + s[5..])
  {
    PhoneRegexShape(s);
    var t := s[..4] + [w] + s[5..];
    PhoneRegexShape(t);
    assert t[1..3] == s[1..3];
    assert t[5..|t| - 5] == s[5..|s| - 5];
    assert t[|t| - 4..] == s[|s| - 4..];
    assert IsPhoneShape(t);
  }

  /** A missing separator, a six-digit block or missing parentheses are refused. */
  lemma PhoneFormsRejected(s: string)
    requires s == "(11)91234-5678" || s == "(11) 912345-5678" || s == "11 91234-5678"
    ensures !TelefoneOk(s)
  {
    PhoneRegexShape(s);
  }

  /**
   * When every other field is well formed, the remote answer alone decides:
   * a CPF reported as existing is the one error, whatever its shape.
   */
  lemma {:induction false} LookupDecides(v: Values, c: Checks)
    requires |v.nome| >= 2 && |v.endereco| >= 5 && v.empresaId != ""
    requires IsDateShape(v.dataNascimento) && IsPhoneShape(v.telefone) && c.isEmail(v.email)
    requires PessoasNaCasaOk(v.pessoasNaCasa, c.isNumeric)
    ensures c.cpfExists ==> Validate(v, c) == Err({Cpf})
    ensures !c.cpfExists && IsCpfShape(v.cpf) ==> Validate(v, c) == Ok(v)
  {
    SchemaRules(v, c);
    if c.cpfExists {
      assert Errors(v, c) == {Cpf};
    } else if IsCpfShape(v.cpf) {
      assert Errors(v, c) == {};
    }
  }
}
