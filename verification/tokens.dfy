/** Output tokens and the options record (ContentToken.cs, TokenType.cs, TemplateStringOptions.cs). */
module Tokens {

  /** Whether a token came from literal text or from a resolved property. */
  datatype TokenType = ConstantValue | PropertyValue

  /** One unit of output; values are modelled as their text. */
  datatype ContentToken = ContentToken(kind: TokenType, value: string)

  /** The one option of a template: keep `{key}` verbatim when `key` is not supplied. */
  datatype TemplateStringOptions = TemplateStringOptions(preserveUnmatchedTemplates: bool)

  /** `new TemplateStringOptions()`: preservation is off. */
  const DefaultOptions := TemplateStringOptions(false)

  /** Every token in `tokens` is a constant (LINQ `All` over the token types). */
  predicate AllConstant(tokens: seq<ContentToken>) {
    forall i :: 0 <= i < |tokens| ==> tokens[i].kind == ConstantValue
  }
}
