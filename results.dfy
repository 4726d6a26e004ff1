/** Option, the error kinds the parameter utilities and state constructors raise,
    and the result types that carry them instead of Python exceptions. */
module Results {

  datatype Option<+T> = None | Some(value: T)

  /** One constructor per exception the modelled code raises. */
  datatype Error =
    | MappingMissingIterable   // expand_mapping_parameters: no iterable parameter
    | MappingLengthMismatch    // expand_mapping_parameters: iterables of different lengths
    | NoVariadicKeyword        // collapse_variadic_parameters: ValueError, extra keys but no **kwargs
    | VariadicNotAMapping      // explode_variadic_parameter: the **kwargs entry has no .items()
    | SignatureMismatch        // parameters_to_args_kwargs: keys the signature does not know
    | ReservedArgument(name: string)  // raise_for_reserved_arguments
    | ExtraScheduledTime       // Scheduled(): ValueError, scheduled_time given twice

  datatype Result<+T> = Ok(value: T) | Err(error: Error)

  /** A check that either passes or raises. */
  datatype Outcome = Pass | Fail(error: Error)
}
