/** The kinds of QIF line, each told by its first character (its tag). The reader of
    src/parser.rs and the builder loop of src/transaction.rs dispatch on these. */
module Tags {
  import opened Text

  /** A record terminator: a line that starts with `^`. */
  predicate IsTerminator(line: string) { HasTag(line, '^') }

  /** A date line (`D`) and a payee line (`P`), read the same way by both readers. */
  predicate IsDateLine(line: string) { HasTag(line, 'D') }
  predicate IsPayeeLine(line: string) { HasTag(line, 'P') }

  /** An amount line of `parse_line`: `T` or `U`. */
  predicate IsAmountLine(line: string) { HasTag(line, 'T') || HasTag(line, 'U') }

  /** An amount line of the builder loop of the tests: only `T` (that loop has no `U` arm). */
  predicate IsNumberLine(line: string) { HasTag(line, 'T') }

  /** A category line of `parse_line`: `L`. */
  predicate IsCategoryLine(line: string) { HasTag(line, 'L') }
}
