/**
 * The fixed texts of homework.py: the verdict table, the status template
 * and the error messages whose text does not depend on Python's rendering
 * of an exception, a dict or a request.
 */
module Messages {
  /** `CHANGED_STATUS` is this prefix, the homework name, `STATUS_INFIX`, the verdict. */
  const CHANGED_STATUS_PREFIX: string := "Изменился статус проверки работы \""
  const STATUS_INFIX: string := "\". "

  /** `UNKNOWN_STATUS_ERROR` is this prefix followed by the status. */
  const UNKNOWN_STATUS_PREFIX: string := "Неизвестный статус: "

  /** `ERROR_MESSAGE` is this prefix followed by the error text. */
  const ERROR_MESSAGE_PREFIX: string := "Сбой в работе программы: "

  const NOT_DICT_RESPONSE: string := "Ответ API не является словарем"
  const HOMEWORK_NOT_IN_RESPONSE: string := "Отсутствует ключ homework в ответе"
  const HOMEWORK_IS_NOT_LIST: string := "Ответ не является списком"
  const HOMEWORK_NAME_NOT_FOUND: string := "Не найден ключ \"homework_name\""
  const TOKEN_ERROR: string := "Ошибка в токенах"

  const APPROVED: string := "Работа проверена: ревьюеру всё понравилось. Ура!"
  const REVIEWING: string := "Работа взята на проверку ревьюером."
  const REJECTED: string := "Работа проверена: у ревьюера есть замечания."

  /** `VERDICTS`: review status code to display text. */
  const VERDICTS: map<string, string> :=
    map["approved" := APPROVED, "reviewing" := REVIEWING, "rejected" := REJECTED]
}
