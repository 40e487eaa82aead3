/**
 * The form validators (`validation.ts`). A single-field validator returns
 * `None` (`null`) when the value passes and `Some(message)` otherwise; a form
 * validator collects the messages of the failing fields, in field order.
 * `parseFloat` is not modelled: a price arrives already parsed, `None`
 * standing for `NaN`.
 */
module Validation {
  import opened Common
  import opened Strings

  datatype ValidationError = ValidationError(field: string, message: string)

  /** A character of `[^\s@]`. */
  predicate EmailChar(c: char)
  {
    !IsSpace(c) && c != '@'
  }

  /** A non-empty run of `[^\s@]`, that is `[^\s@]+`. */
  predicate EmailPart(t: string)
  {
    t != [] && forall k :: 0 <= k < |t| ==> EmailChar(t[k])
  }

  /**
   * The pattern `^[^\s@]+@[^\s@]+\.[^\s@]+$` matches `s`: there is an `@`
   * at `i` and a `.` at `j` cutting `s` into three runs of `[^\s@]+`.
   */
  ghost predicate EmailPattern(s: string)
  {
    exists i, j :: 0 <= i < j < |s| && s[i] == '@' && s[j] == '.' &&
      EmailPart(s[..i]) && EmailPart(s[i + 1..j]) && EmailPart(s[j + 1..])
  }

  /** The pattern test, computed: the first `@`, then a dot strictly inside what follows it. */
  function EmailShaped(s: string): (r: bool)
  {
    match FindIndex(s, (c: char) => c == '@')
    case None => false
    case Some(i) =>
      var rest := s[i + 1..];
      EmailPart(s[..i]) && |rest| >= 3 &&
      (forall k :: 0 <= k < |rest| ==> EmailChar(rest[k])) && '.' in rest[1..|rest| - 1]
  }

  /** A slice of a run of `[^\s@]` is another, when non-empty. */
  lemma EmailPartSlice(t: string, a: nat, b: nat)
    requires forall k :: 0 <= k < |t| ==> EmailChar(t[k])
    requires a < b <= |t|
    ensures EmailPart(t[a..b])
  {
    assert forall k :: 0 <= k < b - a ==> t[a..b][k] == t[a + k];
  }

  lemma EmailShapedMatches(s: string)
    requires EmailShaped(s)
    ensures EmailPattern(s)
  {
    var i := FindIndex(s, (c: char) => c == '@').value;
    var rest := s[i + 1..];
    var inner := rest[1..|rest| - 1];
    var m :| 0 <= m < |inner| && inner[m] == '.';
    var j := i + 2 + m;
    assert s[j] == rest[m + 1] == '.';
    EmailPartSlice(rest, 0, m + 1);
    EmailPartSlice(rest, m + 2, |rest|);
    assert s[i + 1..j] == rest[..m + 1];
    assert s[j + 1..] == rest[m + 2..];
    assert s[i] == '@' && EmailPart(s[..i]);
    assert 0 <= i < j < |s| && s[i] == '@' && s[j] == '.' &&
      EmailPart(s[..i]) && EmailPart(s[i + 1..j]) && EmailPart(s[j + 1..]);
  }

  lemma EmailMatchShaped(s: string, i: nat, j: nat)
    requires 0 <= i < j < |s| && s[i] == '@' && s[j] == '.'
    requires EmailPart(s[..i]) && EmailPart(s[i + 1..j]) && EmailPart(s[j + 1..])
    ensures EmailShaped(s)
  {
    assert forall k :: 0 <= k < i ==> s[k] == s[..i][k];
    var at := FindIndex(s, (c: char) => c == '@');
    assert at == Some(i);
    var rest := s[i + 1..];
    forall k | 0 <= k < |rest| ensures EmailChar(rest[k]) {
      if k < j - i - 1 {
        assert rest[k] == s[i + 1..j][k];
      } else if k > j - i - 1 {
        assert rest[k] == s[j + 1..][k - (j - i)];
      }
    }
    assert rest[1..|rest| - 1][j - i - 2] == '.';
  }

  /** The computed test agrees with the pattern on every string. */
  lemma EmailShapedMeansPattern(s: string)
    ensures EmailShaped(s) <==> EmailPattern(s)
  {
    if EmailShaped(s) {
      EmailShapedMatches(s);
    }
    if EmailPattern(s) {
      var i, j :| 0 <= i < j < |s| && s[i] == '@' && s[j] == '.' &&
        EmailPart(s[..i]) && EmailPart(s[i + 1..j]) && EmailPart(s[j + 1..]);
      EmailMatchShaped(s, i, j);
    }
  }

  /** `validateEmail`. */
  function ValidateEmail(email: string): (r: Option<string>)
    ensures email == "" ==> r == Some("Email is required")
    ensures email != "" && r.Some? ==> r == Some("Please enter a valid email address")
  {
    if email == "" then Some("Email is required")
    else if !EmailShaped(email) then Some("Please enter a valid email address")
    else None
  }

  /** `validateEmail` accepts exactly the strings the pattern matches. */
  lemma ValidateEmailMeaning(email: string)
    ensures ValidateEmail(email).None? <==> EmailPattern(email)
  {
    EmailShapedMeansPattern(email);
  }

  /** A character of `[\d\s\+\-\(\)]`. */
  predicate PhoneChar(c: char)
  {
    IsDigit(c) || IsSpace(c) || c == '+' || c == '-' || c == '(' || c == ')'
  }

  /** `phone.replace(/\D/g, '').length`: the number of digits. */
  function DigitCount(s: string): (n: nat)
    ensures n <= |s|
  {
    |Filter(s, IsDigit)|
  }

  /** `validatePhone`: the three checks, in the source's order. */
  function ValidatePhone(phone: string): (r: Option<string>)
    ensures r.None? <==> phone != "" && (forall k :: 0 <= k < |phone| ==> PhoneChar(phone[k])) && DigitCount(phone) >= 10
    ensures phone == "" ==> r == Some("Phone number is required")
    ensures phone != "" && (exists k :: 0 <= k < |phone| && !PhoneChar(phone[k])) ==> r == Some("Please enter a valid phone number")
  {
    if phone == "" then Some("Phone number is required")
    else if exists k :: 0 <= k < |phone| && !PhoneChar(phone[k]) then Some("Please enter a valid phone number")
    else if DigitCount(phone) < 10 then Some("Phone number must be at least 10 digits")
    else None
  }

  /** A phone number has at least ten characters; a shorter one is always rejected. */
  lemma ShortPhoneRejected(phone: string)
    requires |phone| < 10
    ensures ValidatePhone(phone).Some?
  {
  }

  /** `validateRequired`: the value is missing or white space only. */
  function ValidateRequired(value: string, fieldName: string): Option<string>
  {
    if value == "" || |Trim(value)| == 0 then Some(fieldName + " is required") else None
  }

  /** A value is rejected as required exactly when it holds nothing but white space. */
  lemma ValidateRequiredMeaning(value: string, fieldName: string)
    ensures ValidateRequired(value, fieldName).None? <==> Filled(value)
    ensures ValidateRequired(value, fieldName).Some? ==> ValidateRequired(value, fieldName).value == fieldName + " is required"
  {
    TrimEmptyIff(value);
  }

  /** `validateMinLength`. */
  function ValidateMinLength(value: string, minLength: int, fieldName: string): (r: Option<string>)
    ensures r.Some? <==> Utf16Length(value) < minLength
    ensures r.Some? ==> StartsWith(r.value, fieldName + " must be at least ")
  {
    if Utf16Length(value) < minLength then
      var m := fieldName + " must be at least " + IntToString(minLength) + " characters";
      assert m[..|fieldName + " must be at least "|] == fieldName + " must be at least ";
      Some(m)
    else None
  }

  /** `validateMaxLength`. */
  function ValidateMaxLength(value: string, maxLength: int, fieldName: string): (r: Option<string>)
    ensures r.Some? <==> Utf16Length(value) > maxLength
    ensures r.Some? ==> StartsWith(r.value, fieldName + " must be no more than ")
  {
    if Utf16Length(value) > maxLength then
      var m := fieldName + " must be no more than " + IntToString(maxLength) + " characters";
      assert m[..|fieldName + " must be no more than "|] == fieldName + " must be no more than ";
      Some(m)
    else None
  }

  /**
   * On text without astral characters both length checks count characters;
   * three emoji already exceed a maximum of five.
   */
  lemma LengthChecksCountCodeUnits(value: string, limit: int, fieldName: string, a: char, b: char, c: char)
    requires IsAstral(a) && IsAstral(b) && IsAstral(c)
    ensures (forall i :: 0 <= i < |value| ==> !IsAstral(value[i])) ==>
              (ValidateMinLength(value, limit, fieldName).Some? <==> |value| < limit) &&
              (ValidateMaxLength(value, limit, fieldName).Some? <==> |value| > limit)
    ensures ValidateMaxLength([a, b, c], 5, fieldName).Some?
  {
    Utf16LengthIsSize(value);
    Utf16LengthThreeAstral(a, b, c);
  }

  /** `validatePrice` of an already parsed number (`None` is `NaN`). */
  function ValidatePrice(price: Option<real>): (r: Option<string>)
    ensures r.None? <==> price.Some? && price.value > 0.0
    ensures r.Some? ==> r.value == "Price must be a positive number"
  {
    if price.None? || price.value <= 0.0 then Some("Price must be a positive number") else None
  }

  predicate IsAngle(c: char)
  {
    c == '<' || c == '>'
  }

  /** `sanitizeInput`: trim, then delete every `<` and `>`. */
  function SanitizeInput(input: string): (r: string)
    ensures |r| <= |input|
    ensures forall k :: 0 <= k < |r| ==> !IsAngle(r[k])
    ensures forall c :: c in r <==> c in Trim(input) && !IsAngle(c)
  {
    var r := Filter(Trim(input), (c: char) => !IsAngle(c));
    assert forall k :: 0 <= k < |r| ==> r[k] in r;
    r
  }

  /** Sanitising a string with no angle brackets and no surrounding white space leaves it as it is. */
  lemma SanitizeKeepsClean(s: string)
    requires forall k :: 0 <= k < |s| ==> !IsAngle(s[k])
    requires s == [] || (!IsSpace(s[0]) && !IsSpace(s[|s| - 1]))
    ensures SanitizeInput(s) == s
  {
    assert TrimStart(s) == s;
    assert TrimEnd(s) == s;
    FilterAll(s, (c: char) => !IsAngle(c));
  }

  /** The brackets are removed after trimming, so the result can still start with white space. */
  lemma SanitizeAfterTrim()
    ensures SanitizeInput("< a") == " a"
  {
    var s := "< a";
    var f := (c: char) => !IsAngle(c);
    assert !IsSpace(s[0]) && !IsSpace(s[2]);
    assert TrimStart(s) == s;
    assert TrimEnd(s) == s;
    assert s[1..][1..][1..] == [];
    assert Filter(s[2..], f) == "a";
    assert Filter(s[1..], f) == " a";
    assert Filter(s, f) == " a";
  }

  /** The message of a failing check, tagged with its field. */
  function ErrorOf(field: string, result: Option<string>): (r: seq<ValidationError>)
    ensures |r| <= 1 && (r == [] <==> result.None?)
  {
    if result.Some? then [ValidationError(field, result.value)] else []
  }

  /** The errors of a list of checks `(field, result)`: one per failing check, in the checks' order. */
  function Collect(checks: seq<(string, Option<string>)>): (r: seq<ValidationError>)
    ensures |r| <= |checks|
  {
    if checks == [] then []
    else Collect(checks[..|checks| - 1]) + ErrorOf(checks[|checks| - 1].0, checks[|checks| - 1].1)
  }

  lemma CollectSnoc(checks: seq<(string, Option<string>)>, field: string, result: Option<string>)
    ensures Collect(checks + [(field, result)]) == Collect(checks) + ErrorOf(field, result)
  {
    assert (checks + [(field, result)])[..|checks|] == checks;
  }

  /**
   * A form passes exactly when each of its checks passes, and every
   * reported error is the message of one failing check, under its field.
   */
  lemma {:induction false} CollectMeaning(checks: seq<(string, Option<string>)>)
    ensures Collect(checks) == [] <==> forall i :: 0 <= i < |checks| ==> checks[i].1.None?
    ensures forall e :: e in Collect(checks) ==>
              exists i :: 0 <= i < |checks| && checks[i].0 == e.field && checks[i].1 == Some(e.message)
  {
    if checks != [] {
      var init := checks[..|checks| - 1];
      var last := checks[|checks| - 1];
      CollectMeaning(init);
      assert Collect(checks) == Collect(init) + ErrorOf(last.0, last.1);
      assert forall i :: 0 <= i < |init| ==> init[i] == checks[i];
      forall e | e in Collect(checks)
        ensures exists i :: 0 <= i < |checks| && checks[i].0 == e.field && checks[i].1 == Some(e.message)
      {
        if e in Collect(init) {
          var i :| 0 <= i < |init| && init[i].0 == e.field && init[i].1 == Some(e.message);
          assert checks[i] == init[i];
        } else {
          assert e in ErrorOf(last.0, last.1);
          var i := |checks| - 1;
          assert checks[i].0 == e.field && checks[i].1 == Some(e.message);
        }
      }
    }
  }

  /** The errors appear in the order the checks run: a check's error precedes the errors of later checks. */
  lemma {:induction false} CollectOrder(a: seq<(string, Option<string>)>, b: seq<(string, Option<string>)>)
    ensures Collect(a + b) == Collect(a) + Collect(b)
    decreases |b|
  {
    if b == [] {
      assert a + b == a;
    } else {
      var c := b[|b| - 1];
      var bInit := b[..|b| - 1];
      assert b == bInit + [c];
      assert a + b == (a + bInit) + [c];
      calc {
        Collect(a + b);
        { CollectSnoc(a + bInit, c.0, c.1); }
        Collect(a + bInit) + ErrorOf(c.0, c.1);
        { CollectOrder(a, bInit); }
        (Collect(a) + Collect(bInit)) + ErrorOf(c.0, c.1);
        { AppendAssoc(Collect(a), Collect(bInit), ErrorOf(c.0, c.1)); }
        Collect(a) + (Collect(bInit) + ErrorOf(c.0, c.1));
        { CollectSnoc(bInit, c.0, c.1); }
        Collect(a) + Collect(b);
      }
    }
  }

  /** `if (error) errors.push({ field, message: error })`. */
  method Report(errors: seq<ValidationError>, field: string, result: Option<string>) returns (out: seq<ValidationError>)
    ensures out == errors + ErrorOf(field, result)
  {
    out := errors;
    if result.Some? {
      out := out + [ValidationError(field, result.value)];
    }
  }

  lemma CollectFour(a: (string, Option<string>), b: (string, Option<string>), c: (string, Option<string>),
                    d: (string, Option<string>))
    ensures Collect([a, b, c, d]) == ErrorOf(a.0, a.1) + ErrorOf(b.0, b.1) + ErrorOf(c.0, c.1) + ErrorOf(d.0, d.1)
  {
    var ea, eb, ec, ed := ErrorOf(a.0, a.1), ErrorOf(b.0, b.1), ErrorOf(c.0, c.1), ErrorOf(d.0, d.1);
    assert [a] == [] + [a];
    CollectSnoc([], a.0, a.1);
    assert Collect([a]) == ea;
    assert [a, b] == [a] + [b];
    CollectSnoc([a], b.0, b.1);
    assert Collect([a, b]) == ea + eb;
    assert [a, b, c] == [a, b] + [c];
    CollectSnoc([a, b], c.0, c.1);
    assert Collect([a, b, c]) == ea + eb + ec;
    assert [a, b, c, d] == [a, b, c] + [d];
    CollectSnoc([a, b, c], d.0, d.1);
  }

  lemma CollectSix(a: (string, Option<string>), b: (string, Option<string>), c: (string, Option<string>),
                   d: (string, Option<string>), e: (string, Option<string>), f: (string, Option<string>))
    ensures Collect([a, b, c, d, e, f]) ==
              ErrorOf(a.0, a.1) + ErrorOf(b.0, b.1) + ErrorOf(c.0, c.1) + ErrorOf(d.0, d.1) + ErrorOf(e.0, e.1) +
              ErrorOf(f.0, f.1)
  {
    CollectFour(a, b, c, d);
    CollectSnoc([a, b, c, d], e.0, e.1);
    CollectSnoc([a, b, c, d, e], f.0, f.1);
    assert [a, b, c, d, e] == [a, b, c, d] + [e];
    assert [a, b, c, d, e, f] == [a, b, c, d, e] + [f];
  }

  datatype ShopForm = ShopForm(shopName: string, ownerName: string, category: string, address: string, city: string, phone: string)

  /** The checks of `validateShopForm`, in the order it runs them. */
  function ShopChecks(d: ShopForm): seq<(string, Option<string>)>
  {
    [("shopName", ValidateRequired(d.shopName, "Shop name")),
     ("ownerName", ValidateRequired(d.ownerName, "Owner name")),
     ("category", ValidateRequired(d.category, "Category")),
     ("address", ValidateRequired(d.address, "Address")),
     ("city", ValidateRequired(d.city, "City")),
     ("phone", ValidatePhone(d.phone))]
  }

  /** A field holds something other than white space. */
  predicate Filled(s: string)
  {
    exists k :: 0 <= k < |s| && !IsSpace(s[k])
  }

  predicate PhoneValid(phone: string)
  {
    phone != "" && (forall k :: 0 <= k < |phone| ==> PhoneChar(phone[k])) && DigitCount(phone) >= 10
  }

  /** Every field of a shop form passes. */
  predicate ShopFormValid(d: ShopForm)
  {
    Filled(d.shopName) && Filled(d.ownerName) && Filled(d.category) && Filled(d.address) && Filled(d.city) &&
    PhoneValid(d.phone)
  }

  /** `validateShopForm`: pushes the error of each failing field, in field order. */
  method ValidateShopForm(d: ShopForm) returns (errors: seq<ValidationError>)
    ensures errors == Collect(ShopChecks(d))
  {
    errors := [];
    var shopNameError := ValidateRequired(d.shopName, "Shop name");
    errors := Report(errors, "shopName", shopNameError);
    ghost var acc := ErrorOf("shopName", shopNameError);
    assert errors == acc;
    var ownerNameError := ValidateRequired(d.ownerName, "Owner name");
    errors := Report(errors, "ownerName", ownerNameError);
    acc := acc + ErrorOf("ownerName", ownerNameError);
    assert errors == acc;
    var categoryError := ValidateRequired(d.category, "Category");
    errors := Report(errors, "category", categoryError);
    acc := acc + ErrorOf("category", categoryError);
    assert errors == acc;
    var addressError := ValidateRequired(d.address, "Address");
    errors := Report(errors, "address", addressError);
    acc := acc + ErrorOf("address", addressError);
    assert errors == acc;
    var cityError := ValidateRequired(d.city, "City");
    errors := Report(errors, "city", cityError);
    acc := acc + ErrorOf("city", cityError);
    assert errors == acc;
    var phoneError := ValidatePhone(d.phone);
    errors := Report(errors, "phone", phoneError);
    acc := acc + ErrorOf("phone", phoneError);
    assert errors == acc;
    CollectSix(("shopName", shopNameError), ("ownerName", ownerNameError), ("category", categoryError),
               ("address", addressError), ("city", cityError), ("phone", phoneError));
  }

  /** A shop form yields no error exactly when every field is filled and the phone number is valid. */
  lemma ShopFormMeaning(d: ShopForm)
    ensures Collect(ShopChecks(d)) == [] <==> ShopFormValid(d)
  {
    var a := ValidateRequired(d.shopName, "Shop name");
    ValidateRequiredMeaning(d.shopName, "Shop name");
    var b := ValidateRequired(d.ownerName, "Owner name");
    ValidateRequiredMeaning(d.ownerName, "Owner name");
    var c := ValidateRequired(d.category, "Category");
    ValidateRequiredMeaning(d.category, "Category");
    var e := ValidateRequired(d.address, "Address");
    ValidateRequiredMeaning(d.address, "Address");
    var f := ValidateRequired(d.city, "City");
    ValidateRequiredMeaning(d.city, "City");
    var g := ValidatePhone(d.phone);
    assert ShopChecks(d) == [("shopName", a), ("ownerName", b), ("category", c), ("address", e), ("city", f), ("phone", g)];
    CollectSix(("shopName", a), ("ownerName", b), ("category", c), ("address", e), ("city", f), ("phone", g));
  }

  datatype ProductForm = ProductForm(name: string, description: string, price: Option<real>, category: string)

  /** The checks of `validateProductForm`, in the order it runs them. */
  function ProductChecks(d: ProductForm): seq<(string, Option<string>)>
  {
    [("name", ValidateRequired(d.name, "Product name")),
     ("description", ValidateRequired(d.description, "Description")),
     ("price", ValidatePrice(d.price)),
     ("category", ValidateRequired(d.category, "Category"))]
  }

  predicate ProductFormValid(d: ProductForm)
  {
    Filled(d.name) && Filled(d.description) && d.price.Some? && d.price.value > 0.0 && Filled(d.category)
  }

  /** `validateProductForm`. */
  method ValidateProductForm(d: ProductForm) returns (errors: seq<ValidationError>)
    ensures errors == Collect(ProductChecks(d))
  {
    errors := [];
    var nameError := ValidateRequired(d.name, "Product name");
    errors := Report(errors, "name", nameError);
    ghost var acc := ErrorOf("name", nameError);
    assert errors == acc;
    var descriptionError := ValidateRequired(d.description, "Description");
    errors := Report(errors, "description", descriptionError);
    acc := acc + ErrorOf("description", descriptionError);
    assert errors == acc;
    var priceError := ValidatePrice(d.price);
    errors := Report(errors, "price", priceError);
    acc := acc + ErrorOf("price", priceError);
    assert errors == acc;
    var categoryError := ValidateRequired(d.category, "Category");
    errors := Report(errors, "category", categoryError);
    acc := acc + ErrorOf("category", categoryError);
    assert errors == acc;
    CollectFour(("name", nameError), ("description", descriptionError), ("price", priceError), ("category", categoryError));
  }

  /** A product form yields no error exactly when name, description and category are filled and the price is positive. */
  lemma ProductFormMeaning(d: ProductForm)
    ensures Collect(ProductChecks(d)) == [] <==> ProductFormValid(d)
  {
    var a := ValidateRequired(d.name, "Product name");
    ValidateRequiredMeaning(d.name, "Product name");
    var b := ValidateRequired(d.description, "Description");
    ValidateRequiredMeaning(d.description, "Description");
    var c := ValidatePrice(d.price);
    var e := ValidateRequired(d.category, "Category");
    ValidateRequiredMeaning(d.category, "Category");
    assert ProductChecks(d) == [("name", a), ("description", b), ("price", c), ("category", e)];
    CollectFour(("name", a), ("description", b), ("price", c), ("category", e));
  }

  /** `^\d{6}$`. */
  predicate SixDigits(s: string)
  {
    |s| == 6 && forall k :: 0 <= k < 6 ==> IsDigit(s[k])
  }

  /** The pincode step of `validateCheckoutForm`: at most one error, "required" taking precedence. */
  function PincodeError(pincode: string): (r: Option<string>)
    ensures r == Some("Pincode is required") <==> !Filled(pincode)
    ensures r == Some("Pincode must be 6 digits") <==> Filled(pincode) && !SixDigits(pincode)
    ensures r.None? <==> SixDigits(pincode)
  {
    ValidateRequiredMeaning(pincode, "Pincode");
    var required := ValidateRequired(pincode, "Pincode");
    assert "Pincode" + " is required" == "Pincode is required";
    if required.Some? then required
    else if !SixDigits(pincode) then Some("Pincode must be 6 digits")
    else None
  }

  datatype CheckoutForm = CheckoutForm(name: string, email: string, phone: string, address: string, city: string, pincode: string)

  /** The checks of `validateCheckoutForm`, in the order it runs them. */
  function CheckoutChecks(d: CheckoutForm): seq<(string, Option<string>)>
  {
    [("name", ValidateRequired(d.name, "Name")),
     ("email", ValidateEmail(d.email)),
     ("phone", ValidatePhone(d.phone)),
     ("address", ValidateRequired(d.address, "Address")),
     ("city", ValidateRequired(d.city, "City")),
     ("pincode", PincodeError(d.pincode))]
  }

  ghost predicate CheckoutFormValid(d: CheckoutForm)
  {
    Filled(d.name) && EmailPattern(d.email) && PhoneValid(d.phone) && Filled(d.address) && Filled(d.city) &&
    SixDigits(d.pincode)
  }

  /** `validateCheckoutForm`. */
  method ValidateCheckoutForm(d: CheckoutForm) returns (errors: seq<ValidationError>)
    ensures errors == Collect(CheckoutChecks(d))
  {
    errors := [];
    var nameError := ValidateRequired(d.name, "Name");
    errors := Report(errors, "name", nameError);
    ghost var acc := ErrorOf("name", nameError);
    assert errors == acc;
    var emailError := ValidateEmail(d.email);
    errors := Report(errors, "email", emailError);
    acc := acc + ErrorOf("email", emailError);
    assert errors == acc;
    var phoneError := ValidatePhone(d.phone);
    errors := Report(errors, "phone", phoneError);
    acc := acc + ErrorOf("phone", phoneError);
    assert errors == acc;
    var addressError := ValidateRequired(d.address, "Address");
    errors := Report(errors, "address", addressError);
    acc := acc + ErrorOf("address", addressError);
    assert errors == acc;
    var cityError := ValidateRequired(d.city, "City");
    errors := Report(errors, "city", cityError);
    acc := acc + ErrorOf("city", cityError);
    assert errors == acc;
    var pincodeError := ValidateRequired(d.pincode, "Pincode");
    if pincodeError.None? && !SixDigits(d.pincode) {
      pincodeError := Some("Pincode must be 6 digits");
    }
    assert pincodeError == PincodeError(d.pincode);
    errors := Report(errors, "pincode", pincodeError);
    acc := acc + ErrorOf("pincode", pincodeError);
    assert errors == acc;
    CollectSix(("name", nameError), ("email", emailError), ("phone", phoneError),
               ("address", addressError), ("city", cityError), ("pincode", pincodeError));
  }

  /** A checkout form yields no error exactly when every field passes, the email matching its pattern. */
  lemma CheckoutFormMeaning(d: CheckoutForm)
    ensures Collect(CheckoutChecks(d)) == [] <==> CheckoutFormValid(d)
  {
    var a := ValidateRequired(d.name, "Name");
    ValidateRequiredMeaning(d.name, "Name");
    var b := ValidateEmail(d.email);
    ValidateEmailMeaning(d.email);
    var c := ValidatePhone(d.phone);
    var e := ValidateRequired(d.address, "Address");
    ValidateRequiredMeaning(d.address, "Address");
    var f := ValidateRequired(d.city, "City");
    ValidateRequiredMeaning(d.city, "City");
    var g := PincodeError(d.pincode);
    assert CheckoutChecks(d) == [("name", a), ("email", b), ("phone", c), ("address", e), ("city", f), ("pincode", g)];
    CollectSix(("name", a), ("email", b), ("phone", c), ("address", e), ("city", f), ("pincode", g));
  }
}
