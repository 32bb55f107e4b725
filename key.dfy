/** The keys a layout row can hold (kz.project.keyboard.model.Key). */
module Keys {
  datatype Key =
    | Character(value: string)
    | Shift
    | Delete
    | Space
    | Enter
    | LanguageToggle
    | NumberToggle
    | EmojiToggle
}
