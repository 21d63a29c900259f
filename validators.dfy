/** Form validation: the value predicates and the per-form validators, which collect one
    message per failing field. Numeric form values arrive already parsed: `None` stands
    for a value that does not parse (NaN). A text field that may be absent or not a
    string is an `Option<string>`. */
module Validators {
  import opened Common

  /** The characters JavaScript's `\s` and `trim` treat as white space: the ASCII
      spaces and controls, the Unicode space separators, the line and paragraph
      separators and the byte-order mark. */
  predicate IsWhitespace(c: char) {
    c == ' ' || c == '\t' || c == '\n' || c == '\r' || c == '\U{B}' || c == '\U{C}'
    || c == '\U{A0}' || c == '\U{1680}' || ('\U{2000}' <= c <= '\U{200A}')
    || c == '\U{2028}' || c == '\U{2029}' || c == '\U{202F}' || c == '\U{205F}'
    || c == '\U{3000}' || c == '\U{FEFF}'
  }

  /** The text without leading white space. */
  function TrimStart(s: string): (r: string)
    ensures |r| <= |s| && r == s[|s| - |r|..]
    ensures r == [] || !IsWhitespace(r[0])
    ensures forall k :: 0 <= k < |s| - |r| ==> IsWhitespace(s[k])
  {
    if s != [] && IsWhitespace(s[0]) then TrimStart(s[1..]) else s
  }

  /** The text without trailing white space. */
  function TrimEnd(s: string): (r: string)
    ensures |r| <= |s| && r == s[..|r|]
    ensures r == [] || !IsWhitespace(r[|r| - 1])
    ensures forall k :: |r| <= k < |s| ==> IsWhitespace(s[k])
  {
    if s != [] && IsWhitespace(s[|s| - 1]) then TrimEnd(s[..|s| - 1]) else s
  }

  /** `String.prototype.trim`. */
  function Trim(s: string): (r: string)
    ensures |r| <= |s|
    ensures r == [] || (!IsWhitespace(r[0]) && !IsWhitespace(r[|r| - 1]))
  {
    TrimEnd(TrimStart(s))
  }

  lemma {:induction false} TrimStartOfBlank(s: string)
    requires forall k :: 0 <= k < |s| ==> IsWhitespace(s[k])
    ensures TrimStart(s) == []
  {
    if s != [] {
      TrimStartOfBlank(s[1..]);
    }
  }

  /** Trimming leaves nothing exactly when the text is all white space. */
  lemma TrimEmpty(s: string)
    ensures Trim(s) == [] <==> forall k :: 0 <= k < |s| ==> IsWhitespace(s[k])
  {
    if forall k :: 0 <= k < |s| ==> IsWhitespace(s[k]) {
      TrimStartOfBlank(s);
    }
  }

  /** `isNotEmpty`: a string with a character other than white space. */
  predicate IsNotEmpty(value: Option<string>) {
    value.Some? && |Trim(value.value)| > 0
  }

  lemma NotEmptyMeansVisibleChar(value: Option<string>)
    ensures IsNotEmpty(value) <==>
      value.Some? && exists k :: 0 <= k < |value.value| && !IsWhitespace(value.value[k])
  {
    if value.Some? {
      TrimEmpty(value.value);
    }
  }

  /** Whether no character is white space or `@` (`[^\s@]`). */
  predicate Plain(s: string) {
    forall k :: 0 <= k < |s| ==> !IsWhitespace(s[k]) && s[k] != '@'
  }

  /** The position of the first `c` in `s`, if any. */
  function IndexOf(s: string, c: char): (r: Option<nat>)
    ensures r.Some? ==> r.value < |s| && s[r.value] == c && c !in s[..r.value]
    ensures r.None? ==> c !in s
  {
    if s == [] then None
    else if s[0] == c then Some(0)
    else
      match IndexOf(s[1..], c)
      case None => None
      case Some(i) =>
        assert s[..i + 1] == [s[0]] + s[1..][..i];
        Some(i + 1)
  }

  /** The first occurrence is the one with none before it. */
  lemma {:induction false} IndexOfFirst(s: string, c: char, i: nat)
    requires i < |s| && s[i] == c && c !in s[..i]
    ensures IndexOf(s, c) == Some(i)
  {
    if i > 0 {
      assert s[0] in s[..i];
      assert s[1..][..i - 1] == s[1..i];
      assert s[1..i] == s[..i][1..];
      IndexOfFirst(s[1..], c, i - 1);
    }
  }

  /** Whether a domain has a dot with at least one character before and after it. */
  predicate HasInnerDot(d: string) {
    |d| >= 3 && '.' in d[1..|d| - 1]
  }

  /** `isValidEmail`, `/^[^\s@]+@[^\s@]+\.[^\s@]+$/`, decided from the first `@`. */
  predicate IsValidEmail(s: string) {
    match IndexOf(s, '@')
    case None => false
    case Some(i) => i > 0 && Plain(s[..i]) && Plain(s[i + 1..]) && HasInnerDot(s[i + 1..])
  }

  /** The shape the pattern describes: `a@b.c`, with `a`, `b` and `c` non-empty and free of
      white space and `@`. */
  ghost predicate EmailShape(s: string) {
    exists i, j :: 0 < i && i + 1 < j < |s| - 1 && s[i] == '@' && s[j] == '.'
      && Plain(s[..i]) && Plain(s[i + 1..j]) && Plain(s[j + 1..])
  }

  lemma ValidEmailHasShape(s: string)
    requires IsValidEmail(s)
    ensures EmailShape(s)
  {
    var i := IndexOf(s, '@').value;
    var d := s[i + 1..];
    var m :| 0 <= m < |d[1..|d| - 1]| && d[1..|d| - 1][m] == '.';
    var j := i + 2 + m;
    assert s[j] == '.';
    assert s[i + 1..j] == d[..m + 1];
    assert s[j + 1..] == d[m + 2..];
    var b, c := s[i + 1..j], s[j + 1..];
    forall k | 0 <= k < |b|
      ensures !IsWhitespace(b[k]) && b[k] != '@'
    {
      assert b[k] == d[k];
    }
    forall k | 0 <= k < |c|
      ensures !IsWhitespace(c[k]) && c[k] != '@'
    {
      assert c[k] == d[m + 2 + k];
    }
    assert 0 < i && i + 1 < j < |s| - 1 && s[i] == '@';
  }

  lemma ShapedEmailIsValid(s: string, i: int, j: int)
    requires 0 < i && i + 1 < j < |s| - 1 && s[i] == '@' && s[j] == '.'
    requires Plain(s[..i]) && Plain(s[i + 1..j]) && Plain(s[j + 1..])
    ensures IsValidEmail(s)
  {
    IndexOfFirst(s, '@', i);
    var d := s[i + 1..];
    forall k | 0 <= k < |d|
      ensures !IsWhitespace(d[k]) && d[k] != '@'
    {
      if i + 1 + k < j {
        assert d[k] == s[i + 1..j][k];
      } else if i + 1 + k > j {
        assert d[k] == s[j + 1..][i + k - j];
      } else {
        assert d[k] == s[j];
      }
    }
    assert d[1..|d| - 1][j - i - 2] == '.';
  }

  /** The validator accepts exactly the strings of that shape. */
  lemma EmailValidIffShape(s: string)
    ensures IsValidEmail(s) <==> EmailShape(s)
  {
    if IsValidEmail(s) {
      ValidEmailHasShape(s);
    }
    if EmailShape(s) {
      var i, j :| 0 < i && i + 1 < j < |s| - 1 && s[i] == '@' && s[j] == '.'
        && Plain(s[..i]) && Plain(s[i + 1..j]) && Plain(s[j + 1..]);
      ShapedEmailIsValid(s, i, j);
    }
  }

  lemma EmailAccepted()
    ensures IsValidEmail("a@b.c") && IsValidEmail("a.b@c.d.e")
  {
    ShapedEmailIsValid("a@b.c", 1, 3);
    ShapedEmailIsValid("a.b@c.d.e", 3, 5);
  }

  /** A missing part, a second `@` or white space is refused. */
  lemma EmailRefused()
    ensures !IsValidEmail("a@b") && !IsValidEmail("@b.c") && !IsValidEmail("a@b.")
    ensures !IsValidEmail("a b@c.d") && !IsValidEmail("a@b@c.d")
  {
    assert "a@b@c.d"[2..][1] == '@';
    assert "a b@c.d"[..3][1] == ' ';
  }

  /** The outcome of `validatePassword`. */
  datatype PasswordCheck = PasswordCheck(valid: bool, message: string)

  const PasswordRequired: string := "Senha é obrigatória"
  const PasswordTooShort: string := "Senha deve ter no mínimo 6 caracteres"
  const MinPasswordLength: nat := 6

  /** `validatePassword`: a missing or empty password is refused first, then one shorter
      than six characters; any other is accepted with an empty message. */
  function ValidatePassword(password: Option<string>): (r: PasswordCheck)
    ensures r.valid <==> password.Some? && |password.value| >= MinPasswordLength
    ensures r.valid <==> r.message == ""
    ensures (password.None? || password.value == "") ==> r.message == PasswordRequired
    ensures password.Some? && 0 < |password.value| < MinPasswordLength ==> r.message == PasswordTooShort
  {
    if password.None? || password.value == "" then PasswordCheck(false, PasswordRequired)
    else if |password.value| < MinPasswordLength then PasswordCheck(false, PasswordTooShort)
    else PasswordCheck(true, "")
  }

  /** `isPositiveNumber` on the parsed value. */
  predicate IsPositiveNumber(value: Option<real>) {
    value.Some? && value.value > 0.0
  }

  /** `isNonNegativeNumber` on the parsed value. */
  predicate IsNonNegativeNumber(value: Option<real>) {
    value.Some? && value.value >= 0.0
  }

  lemma PositiveIsNonNegative(value: Option<real>)
    ensures IsPositiveNumber(value) ==> IsNonNegativeNumber(value)
    ensures IsNonNegativeNumber(value) && !IsPositiveNumber(value) ==> value == Some(0.0)
  {
  }

  /** `isPositiveInteger`: the integer prefix parsed by `parseInt` is positive and the same
      number `parseFloat` reads, so no fractional part was dropped. */
  predicate IsPositiveInteger(asInt: Option<int>, asReal: Option<real>) {
    asInt.Some? && asInt.value > 0 && asReal == Some(asInt.value as real)
  }

  /** `"3.5"` parses as 3 and 3.5 and is refused; `"3"` and `"3.0"` are accepted. */
  lemma PositiveIntegerExamples()
    ensures !IsPositiveInteger(Some(3), Some(3.5))
    ensures IsPositiveInteger(Some(3), Some(3.0))
    ensures !IsPositiveInteger(Some(0), Some(0.0)) && !IsPositiveInteger(None, None)
  {
  }

  lemma PositiveIntegerIsPositive(asInt: Option<int>, asReal: Option<real>)
    ensures IsPositiveInteger(asInt, asReal) ==> IsPositiveNumber(asReal)
  {
  }

  /** Whether a required form value is truthy: present and not the empty string. */
  predicate Present(value: Option<string>) {
    value.Some? && value.value != ""
  }

  /** The product form; `conversionFactor` is collected but never validated. */
  datatype ProductForm = ProductForm(
    name: Option<string>,
    currentQuantity: Option<real>,
    minQuantity: Option<real>,
    conversionFactor: Option<real>)

  /** The stock-entry form; `unitPrice` is collected but never validated. */
  datatype EntryForm = EntryForm(
    productId: Option<string>,
    quantity: Option<real>,
    unitPrice: Option<real>,
    cost: Option<real>,
    date: Option<string>)

  datatype ServiceTypeForm = ServiceTypeForm(name: Option<string>, price: Option<real>)

  datatype ServiceForm = ServiceForm(clientName: Option<string>, serviceTypeId: Option<string>, date: Option<string>)

  /** The outcome of a form validator: valid, and one message per failing field. */
  datatype Validation = Validation(valid: bool, errors: map<string, string>)

  const NameRequired: string := "Nome é obrigatório"
  const QuantityInvalid: string := "Quantidade deve ser um número válido"
  const MinQuantityInvalid: string := "Estoque mínimo deve ser um número válido"
  const ProductRequired: string := "Selecione um produto"
  const QuantityNotPositive: string := "Quantidade deve ser maior que zero"
  const CostNotPositive: string := "Valor deve ser maior que zero"
  const DateRequired: string := "Data é obrigatória"
  const PriceNotPositive: string := "Preço deve ser maior que zero"
  const ClientRequired: string := "Nome do cliente é obrigatório"
  const ServiceTypeRequired: string := "Selecione um tipo de serviço"

  /** `validateProduct`: checks the name and the two quantities. */
  method ValidateProduct(product: ProductForm) returns (r: Validation)
    ensures r.valid <==> r.errors == map[]
    ensures r.errors.Keys <= {"name", "current_quantity", "min_quantity"}
    ensures "name" in r.errors <==> !IsNotEmpty(product.name)
    ensures "current_quantity" in r.errors <==> !IsNonNegativeNumber(product.currentQuantity)
    ensures "min_quantity" in r.errors <==> !IsNonNegativeNumber(product.minQuantity)
    ensures "name" in r.errors ==> r.errors["name"] == NameRequired
    ensures "current_quantity" in r.errors ==> r.errors["current_quantity"] == QuantityInvalid
    ensures "min_quantity" in r.errors ==> r.errors["min_quantity"] == MinQuantityInvalid
  {
    var errors: map<string, string> := map[];
    if !IsNotEmpty(product.name) {
      errors := errors["name" := NameRequired];
    }
    if !IsNonNegativeNumber(product.currentQuantity) {
      errors := errors["current_quantity" := QuantityInvalid];
    }
    if !IsNonNegativeNumber(product.minQuantity) {
      errors := errors["min_quantity" := MinQuantityInvalid];
    }
    r := Validation(|errors| == 0, errors);
  }

  /** `validateStockEntry`: checks the product, quantity, cost and date. */
  method ValidateStockEntry(entry: EntryForm) returns (r: Validation)
    ensures r.valid <==> r.errors == map[]
    ensures r.errors.Keys <= {"product_id", "quantity", "cost", "date"}
    ensures "product_id" in r.errors <==> !Present(entry.productId)
    ensures "quantity" in r.errors <==> !IsPositiveNumber(entry.quantity)
    ensures "cost" in r.errors <==> !IsPositiveNumber(entry.cost)
    ensures "date" in r.errors <==> !Present(entry.date)
    ensures "product_id" in r.errors ==> r.errors["product_id"] == ProductRequired
    ensures "quantity" in r.errors ==> r.errors["quantity"] == QuantityNotPositive
    ensures "cost" in r.errors ==> r.errors["cost"] == CostNotPositive
    ensures "date" in r.errors ==> r.errors["date"] == DateRequired
  {
    var errors: map<string, string> := map[];
    if !Present(entry.productId) {
      errors := errors["product_id" := ProductRequired];
    }
    if !IsPositiveNumber(entry.quantity) {
      errors := errors["quantity" := QuantityNotPositive];
    }
    if !IsPositiveNumber(entry.cost) {
      errors := errors["cost" := CostNotPositive];
    }
    if !Present(entry.date) {
      errors := errors["date" := DateRequired];
    }
    r := Validation(|errors| == 0, errors);
  }

  /** `validateServiceType`: checks the name and the price. */
  method ValidateServiceType(serviceType: ServiceTypeForm) returns (r: Validation)
    ensures r.valid <==> r.errors == map[]
    ensures r.errors.Keys <= {"name", "price"}
    ensures "name" in r.errors <==> !IsNotEmpty(serviceType.name)
    ensures "price" in r.errors <==> !IsPositiveNumber(serviceType.price)
    ensures "name" in r.errors ==> r.errors["name"] == NameRequired
    ensures "price" in r.errors ==> r.errors["price"] == PriceNotPositive
  {
    var errors: map<string, string> := map[];
    if !IsNotEmpty(serviceType.name) {
      errors := errors["name" := NameRequired];
    }
    if !IsPositiveNumber(serviceType.price) {
      errors := errors["price" := PriceNotPositive];
    }
    r := Validation(|errors| == 0, errors);
  }

  /** `validateService`: checks the client name, the service type and the date. */
  method ValidateService(service: ServiceForm) returns (r: Validation)
    ensures r.valid <==> r.errors == map[]
    ensures r.errors.Keys <= {"client_name", "service_type_id", "date"}
    ensures "client_name" in r.errors <==> !IsNotEmpty(service.clientName)
    ensures "service_type_id" in r.errors <==> !Present(service.serviceTypeId)
    ensures "date" in r.errors <==> !Present(service.date)
    ensures "client_name" in r.errors ==> r.errors["client_name"] == ClientRequired
    ensures "service_type_id" in r.errors ==> r.errors["service_type_id"] == ServiceTypeRequired
    ensures "date" in r.errors ==> r.errors["date"] == DateRequired
  {
    var errors: map<string, string> := map[];
    if !IsNotEmpty(service.clientName) {
      errors := errors["client_name" := ClientRequired];
    }
    if !Present(service.serviceTypeId) {
      errors := errors["service_type_id" := ServiceTypeRequired];
    }
    if !Present(service.date) {
      errors := errors["date" := DateRequired];
    }
    r := Validation(|errors| == 0, errors);
  }
}
