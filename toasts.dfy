/** The notifications both pages push to PrimeNG's message service, reduced to what they say:
    a severity and a detail line (the summary and display time are not modelled). */
module Toasts {
  datatype Toast = Toast(severity: string, detail: string)
}
