# Customer entity of the Netflex customers package, in Dafny

This project models `Netflex\Customers\Customer`, the entity that stands for
one customer record held by the Netflex API. It covers:

- the declared attribute tables: the defaults (`id`, `firstname`, `surname`,
  all null) and the read-only attributes (`id`, `user_hash`);
- the per-field read accessors: `(int)` casts for `score`, `group_id` and
  `companyId`; `(bool)` casts for `no_newsletter`, `no_sms`, `use_time`,
  `has_error` and `password_reset`; and the derived `name`, which is
  `trim(firstname . ' ' . surname)`;
- PHP's own rules for these casts, for string conversion, for `??` on array
  offsets and for `trim`, over a small datatype of PHP values (`Null`,
  `Bool`, 64-bit `Int`, `Str`, and arrays with string keys);
- the fixed authentication-identity contract (`id` as identifier name, no
  password, `token` as remember-token name, a remember-token setter that
  changes nothing);
- the static `resolve` and `authenticate` operations, as methods over a
  `Remote` class that stands for the API client and for `Customer::retrieve`.
  Its answers are fixed functions given when it is built, and it logs every
  request.

Modules: `PhpValues` (php_values.dfy) holds the PHP value semantics.
`Customers` (customer.dfy) holds the tables, the accessors and the `Customer`
class. `CustomerProtocol` (protocol.dfy) holds credential selection, the
`Remote` stub, `Resolve` and `Authenticate`.

Things the model makes explicit:

- Several doc comments are stale, and the code is followed.
  `getScoreAttribute`, `getGroupIdAttribute` and `getCompanyIdAttribute` say
  `@return bool` but cast to int (src/Customer.php:65-90). `use_time` is
  documented as `int` (src/Customer.php:28) but its accessor casts to bool
  (src/Customer.php:114-117), and that accessor's docblock names its
  parameter `$no_sms` (src/Customer.php:111). `score` has an accessor
  (src/Customer.php:69-72) but no `@property` line (src/Customer.php:11-37).
  `getAuthPassword` says `@return string` but returns null
  (src/Customer.php:169-174). `resolve` says `@return void`
  (src/Customer.php:211) but returns a customer or null.
- In `resolve`, the first assignment to `$emailOrUsername`
  (src/Customer.php:215) is overwritten by the next line before it is read.
  `CustomerProtocol.Resolve` keeps both assignments to show this.
- `authenticate` chooses the identifier with `??` (a null entry is skipped).
  It chooses the `field` by key presence (a null entry still counts). So
  `{email: null, username: "bob"}` sends username "bob" with field "mail".
  `CustomerProtocol.FieldDisagreement` states exactly when this happens.
- `resolve` with an array that has neither a set `email` nor a set
  `username` uses the array itself as the key. PHP spells an array as
  "Array", so the request goes to `.../resolve/Array`.
- The boolean accessors accept every value, not only 0, 1, "0", "1",
  booleans and null: each one is a plain `(bool)` cast.
- `resolve` tests the PHP truthiness of the answer (src/Customer.php:221),
  not whether it is non-empty.

## Model

| member | source | states |
|---|---|---|
| PhpValues.ToBool | src/Customer.php:96-135 | `(bool)` is false exactly on the falsy values null, false, 0, "", "0" and the empty array, and true on every other value |
| PhpValues.ToInt | src/Customer.php:69-90 | `(int)` follows PHP's cast table: null and false give 0, true gives 1, an int is unchanged, a string is read by its leading integer, an array gives 0 or 1 by emptiness |
| PhpValues.StrToInt | src/Customer.php:69-90 | `(int)` of a string with no digit is 0; a string starting with digits reads as the value of that digit run when it fits in 64 bits, as the largest integer when it is larger but within the range of a double, and as 0 beyond that range |
| PhpValues.BigDigits | src/Customer.php:69-90 | a digits-only string whose value exceeds the 64-bit range reads as the largest PHP integer, and as 0 once it exceeds the range of a double |
| PhpValues.ToStr | src/Customer.php:62 | string conversion by `.`: null and false give "", true gives "1", a string is itself, an array gives "Array", and an int gives its decimal spelling (a "-" exactly when negative, digits whose value is the magnitude, no leading zero), which reads back as that int |
| PhpValues.IntToDecimalSpells | src/Customer.php:219 | PHP's spelling of an integer has a "-" exactly when it is negative, followed by digits whose value is its magnitude |
| PhpValues.IntToDecimalCanonical | src/Customer.php:219 | PHP spells every integer with an optional minus sign and digits without a leading zero, zero as "0" |
| PhpValues.NatToDecimalNoLeadingZero | src/Customer.php:219 | the decimal spelling of a positive number does not start with "0" |
| PhpValues.IntStringRoundTrip | src/Customer.php:216-219 | `(int)` of PHP's decimal spelling of an int gives back that int |
| PhpValues.DigitStringToInt | src/Customer.php:69-90 | `(int)` of a digits-only string whose value fits in 64 bits is that value |
| PhpValues.NatToDecimalValue | src/Customer.php:216-219 | the decimal spelling of a natural number has that number as its digit value |
| PhpValues.Saturate | src/Customer.php:69-90 | a value outside the 64-bit range becomes the nearest bound, and a value inside it is unchanged |
| PhpValues.Coalesce | src/Customer.php:216 | `$m[key] ?? fallback` gives the entry when it is present and not null, else the fallback |
| PhpValues.Trim | src/Customer.php:62 | `trim` removes only strippable characters, and only from the two ends, and leaves neither end strippable |
| PhpValues.TrimIdempotent | src/Customer.php:62 | trimming twice is the same as trimming once |
| PhpValues.TrimOfTrimmed | src/Customer.php:62 | a string with no strippable character at either end is left unchanged by `trim` |
| PhpValues.TrimWithTrailingSpace | src/Customer.php:62 | trimming `s . ' '` for a trimmed `s` gives `s` |
| PhpValues.TrimWithLeadingSpace | src/Customer.php:62 | trimming `' ' . s` for a trimmed `s` gives `s` |
| Customers.RawAttribute | src/Customer.php:47-51 | reading a field gives the stored value; if none is stored, `id`, `firstname` and `surname` read null, as does any field without a default |
| Customers.ScoreAttribute | src/Customer.php:69-72 | `score` reads as the `(int)` cast of its raw value |
| Customers.GroupIdAttribute | src/Customer.php:78-81 | `group_id` reads as the `(int)` cast of its raw value |
| Customers.CompanyIdAttribute | src/Customer.php:87-90 | `companyId` reads as the `(int)` cast of its raw value |
| Customers.NoNewsletterAttribute | src/Customer.php:96-99 | `no_newsletter` is false exactly on the six falsy raw values |
| Customers.NoSmsAttribute | src/Customer.php:105-108 | `no_sms` is false exactly on the six falsy raw values |
| Customers.UseTimeAttribute | src/Customer.php:114-117 | `use_time` reads as a boolean, false exactly on the six falsy raw values, even though it is documented as an int |
| Customers.HasErrorAttribute | src/Customer.php:123-126 | `has_error` is false exactly on the six falsy raw values |
| Customers.PasswordResetAttribute | src/Customer.php:132-135 | `password_reset` is false exactly on the six falsy raw values |
| Customers.FullName | src/Customer.php:62 | the concatenation is the first name as a string, one space, then the surname as a string; with neither set it is " " |
| Customers.NameOf | src/Customer.php:61-63 | the name is what is left of firstname, a space and surname once strippable characters are removed from both ends; neither end of it is strippable |
| Customers.NameIsStable | src/Customer.php:61-63 | trimming the name again changes nothing |
| Customers.NameOfDefaults | src/Customer.php:47-63 | with the declared null defaults for both parts, the name is "" |
| Customers.NameOfFirstNameOnly | src/Customer.php:61-63 | with only a trimmed first name (surname absent or null), the name is that first name |
| Customers.NameOfSurnameOnly | src/Customer.php:61-63 | with only a trimmed surname (first name absent or null), the name is that surname |
| Customers.ReadAttribute | src/Customer.php:61-144 | `$customer->key` applies the int cast to `score`, `group_id` and `companyId`, the bool cast to the five flag fields, gives the derived name for `name`, hands `segmentData` to the segment-data factory, and returns any other field as stored; `Customers.Customer.Read` is this read on an object's attributes |
| Customers.ReadAttributeTypes | src/Customer.php:61-135 | the boolean fields always read as booleans and the integer fields as integers, whatever the raw value; the name reads as a trimmed string; other fields read as stored |
| Customers.WriteThenRead | src/Customer.php:61-144 | a value written to a field that has no accessor is what the next read of that field returns |
| Customers.EmptyCustomerReads | src/Customer.php:47-63 | a customer with no attributes reads null for `id`, `firstname` and `surname`, and "" for `name` |
| Customers.Customer.constructor | src/Customer.php:222 | hydration stores the payload as it is, read-only attributes included |
| Customers.Customer.Name | src/Customer.php:61-63 | the customer's name is the trim of its full name and is trimmed |
| Customers.Customer.SetAttribute | src/Customer.php:54-56 | a write to `id` or `user_hash` is refused and changes nothing; any other write is stored |
| Customers.Customer.AuthIdentifierName | src/Customer.php:151-154 | the identifier name is "id" |
| Customers.Customer.AuthIdentifier | src/Customer.php:161-164 | the identifier is the stored `id`, or null when none is stored |
| Customers.Customer.AuthPassword | src/Customer.php:171-174 | the password is always null |
| Customers.Customer.RememberToken | src/Customer.php:181-184 | the remember token is the stored `token`, or null when none is stored |
| Customers.Customer.SetRememberToken | src/Customer.php:192-195 | setting the remember token changes no attribute, and the token reads as before |
| Customers.Customer.RememberTokenName | src/Customer.php:202-205 | the remember-token name is "token" |
| CustomerProtocol.OffsetOr | src/Customer.php:216 | `$credentials[key] ?? fallback`, for the non-numeric offsets `email` and `username`, gives the fallback on a string, and on an array the entry when it is set and not null, else the fallback |
| CustomerProtocol.ResolveKey | src/Customer.php:215-216 | the lookup key is the `email` entry if set, else the `username` entry if set, else the input itself; a plain string is used as it is |
| CustomerProtocol.ResolvePath | src/Customer.php:216-219 | the path read starts with `relations/customers/customer/resolve/`; a plain string identifier follows it verbatim |
| CustomerProtocol.ResolvePrefersEmail | src/Customer.php:216-219 | when both email and username are given, the path uses the email |
| CustomerProtocol.ResolveByIntegerKey | src/Customer.php:216-219 | an integer key is spelt in the path with its sign and digit value and no leading zero, so that `(int)` of the path's tail gives it back |
| CustomerProtocol.AuthUsername | src/Customer.php:235 | the posted username is the email if set, else the username if set, else null |
| CustomerProtocol.AuthField | src/Customer.php:236 | the posted field is "mail" exactly when an `email` key exists, "username" exactly when only a `username` key exists, and null otherwise |
| CustomerProtocol.EntryOrNull | src/Customer.php:237-242 | `$credentials[key] ?? null` is the entry when the key exists, else null |
| CustomerProtocol.AuthBody | src/Customer.php:240-245 | the posted body has exactly the keys username, password, field and group; password and group are null when absent |
| CustomerProtocol.FieldDisagreement | src/Customer.php:235-236 | field and username disagree exactly when an `email` key holds null while a username is set |
| CustomerProtocol.NullEmailExample | src/Customer.php:235-245 | `{email: null, username: "bob"}` posts username "bob" with field "mail" |
| CustomerProtocol.PassedCustomerId | src/Customer.php:248 | `$response->passed->customer_id` is the answer's customer id, or null when it has none |
| CustomerProtocol.Hydration | src/Customer.php:221-222 | the new customer gets exactly the entries of an array payload, so a truthy array gives a customer with attributes; any other payload gives none |
| CustomerProtocol.Remote.Get | src/Customer.php:217-219 | a read is logged and answered from the stub's read answers |
| CustomerProtocol.Remote.Post | src/Customer.php:239-245 | a post is logged and answered from the stub's post answers |
| CustomerProtocol.Remote.Retrieve | src/Customer.php:248 | a retrieval is logged and gives a fresh customer holding the known attributes, or null |
| CustomerProtocol.Resolve | src/Customer.php:213-224 | one read of the resolve path; a fresh customer holding exactly the returned attributes when they are truthy, null otherwise |
| CustomerProtocol.Authenticate | src/Customer.php:233-250 | one post of the credential body; if `authenticated` is truthy, exactly one retrieval of `passed.customer_id`, whose result is returned; otherwise null and no second call |

## Left out

- HTTP transport: `API::getClient()` is a `Remote` object passed as a parameter. Its answers to reads, posts and retrievals are fixed functions. Network failures, which the source lets propagate, are not modelled.
- Attribute store of the `ReactiveObject` base class: its code is not part of this model. The lookup order (stored value, then default, then null), the dispatch of `$obj->key` to its `get<Key>Attribute` method (keyed here by the field names `score`, `group_id`, `companyId`, `no_newsletter`, `no_sms`, `use_time`, `has_error`, `password_reset`, `name` and `segmentData`; how the base class turns a field name into a method name is not known), hydration from an array payload, and the refusal of writes to read-only attributes are assumptions. `Customers.RawAttribute`, `Customers.ReadAttribute`, `Customers.Customer.constructor` and `Customers.Customer.SetAttribute` state these assumptions; the source does not verify them.
- Hydration from a truthy payload that is not an array gives a customer with no attributes. What the base class does in that case is not known.
- `SegmentData::factory` is not part of this model. Reading `segmentData` gives the symbolic `SegmentDataOf(raw)`.
- `Retrievable::retrieve` is not part of this model, including the path it reads. It is the stub's retrieval answer.
- The `CustomersAPI` trait, the static `$base_path` used by the trait's CRUD calls, `GroupCollection` and the Laravel `Authenticatable` coupling are framework glue.
- Floats and objects are not among the modelled PHP values. Decoded JSON objects are therefore modelled as arrays, although an empty object is truthy in PHP and an empty array is not.
- Array keys are strings only. PHP's integer array keys are not modelled.
- PhpValues.StrToInt: reads only whitespace, an optional sign and a digit prefix. A digit run beyond 64 bits is capped, and one at or above 2^1024 - 2^970 reads as 0; that threshold assumes PHP's `strtod` rounds correctly to the nearest double. PHP reads a string with a decimal point or an exponent as a float (a double) and then truncates it. So "1e3" is 1000 in PHP and 1 in the model, and an integer part above 2^53 followed by a decimal point is rounded by PHP ("9007199254740993.5" gives 9007199254740994) but read exactly by the model.
- PHP warnings and notices are not modelled: "Array to string conversion", and reading `passed` or `customer_id` from a response that lacks it. Only the values PHP produces in those cases are modelled.
- `authenticate` called with a string: PHP 8 raises a TypeError in `array_key_exists`. PHP 7 only warns, `array_key_exists` returns null, and the post goes out with all four fields null. The model takes credentials as a map.
- CustomerProtocol.OffsetOr: only the non-numeric offsets `email` and `username` are modelled. A numeric offset of a string, such as `"abc"['0']`, is a character of the string in PHP; the source never uses one.
