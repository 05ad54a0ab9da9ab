/** The modal dialogs the pages open, recorded as values instead of being shown. */
module Dialogs {

  datatype Icon = SuccessIcon | ErrorIcon

  datatype Alert = Alert(icon: Icon, title: string, text: string)
}
